/** What the aggregators compute from a board's vacancies: the estimates that
    survive the `if salary:` filter, their arithmetic mean (`numpy.mean`) and
    the conversion of that mean with `int(...)`, which truncates toward zero. */
module Statistics {
  import opened Wrappers
  import opened Salary

  /** The only way an aggregation fails: `int(numpy.mean([]))` raises, because
      the mean of no estimates is not a number. */
  datatype AnalyticsError = MeanOfEmptyList

  /** The present, non-zero estimates of `vacancies`, in vacancy order: what
      the filtering loop appends to `salaries`. */
  function KeptSalaries<V>(vacancies: seq<V>, predict: V -> Option<real>): (r: seq<real>)
    ensures |r| <= |vacancies|
    ensures forall j :: 0 <= j < |r| ==> r[j] != 0.0
    decreases |vacancies|
  {
    if |vacancies| == 0 then []
    else
      var last := predict(vacancies[|vacancies| - 1]);
      KeptSalaries(vacancies[..|vacancies| - 1], predict) + (if IsKept(last) then [last.value] else [])
  }

  /** The filtering loop of both aggregators: walk the vacancies in order and
      append each present, non-zero estimate. */
  method KeepSalaries<V>(vacancies: seq<V>, predict: V -> Option<real>) returns (salaries: seq<real>)
    ensures salaries == KeptSalaries(vacancies, predict)
  {
    salaries := [];
    for i := 0 to |vacancies|
      invariant salaries == KeptSalaries(vacancies[..i], predict)
    {
      assert vacancies[..i + 1][..i] == vacancies[..i];
      var salary := predict(vacancies[i]);
      if IsKept(salary) {
        salaries := salaries + [salary.value];
      }
    }
    assert vacancies[..|vacancies|] == vacancies;
  }

  /** Filtering distributes over concatenation: the estimates kept from two
      batches of vacancies are those kept from each, in batch order. */
  lemma {:induction false} KeptSalariesAppend<V>(a: seq<V>, b: seq<V>, predict: V -> Option<real>)
    ensures KeptSalaries(a + b, predict) == KeptSalaries(a, predict) + KeptSalaries(b, predict)
    decreases |b|
  {
    if |b| > 0 {
      var b' := b[..|b| - 1];
      assert (a + b)[..|a + b| - 1] == a + b';
      assert (a + b)[|a + b| - 1] == b[|b| - 1];
      KeptSalariesAppend(a, b', predict);
    } else {
      assert a + b == a;
    }
  }

  /** Every kept estimate is the estimate of one of the vacancies. */
  lemma {:induction false} KeptSalariesOrigin<V>(vacancies: seq<V>, predict: V -> Option<real>)
    ensures forall j :: 0 <= j < |KeptSalaries(vacancies, predict)| ==>
              exists i :: 0 <= i < |vacancies| && predict(vacancies[i]) == Some(KeptSalaries(vacancies, predict)[j])
    decreases |vacancies|
  {
    if |vacancies| > 0 {
      var n := |vacancies|;
      var init := vacancies[..n - 1];
      KeptSalariesOrigin(init, predict);
      var kept := KeptSalaries(vacancies, predict);
      var keptInit := KeptSalaries(init, predict);
      forall j | 0 <= j < |kept|
        ensures exists i :: 0 <= i < |vacancies| && predict(vacancies[i]) == Some(KeptSalaries(vacancies, predict)[j])
      {
        if j < |keptInit| {
          var i :| 0 <= i < |init| && predict(init[i]) == Some(keptInit[j]);
          assert init[i] == vacancies[i] && kept[j] == keptInit[j];
        } else {
          assert predict(vacancies[n - 1]) == Some(kept[j]);
        }
      }
    } else {
      assert KeptSalaries(vacancies, predict) == [];
    }
  }

  /** Nothing is kept exactly when no vacancy has a present, non-zero estimate:
      this is when the aggregators' mean fails. */
  lemma {:induction false} KeptSalariesEmptyIff<V>(vacancies: seq<V>, predict: V -> Option<real>)
    ensures KeptSalaries(vacancies, predict) == [] <==>
              forall i :: 0 <= i < |vacancies| ==> !IsKept(predict(vacancies[i]))
    decreases |vacancies|
  {
    if |vacancies| > 0 {
      var init := vacancies[..|vacancies| - 1];
      KeptSalariesEmptyIff(init, predict);
      assert forall i :: 0 <= i < |init| ==> init[i] == vacancies[i];
    }
  }

  /** When every vacancy has a present, non-zero estimate, all are kept, one
      for one and in order. */
  lemma {:induction false} KeptSalariesAll<V>(vacancies: seq<V>, predict: V -> Option<real>)
    requires forall i :: 0 <= i < |vacancies| ==> IsKept(predict(vacancies[i]))
    ensures |KeptSalaries(vacancies, predict)| == |vacancies|
    ensures forall i :: 0 <= i < |vacancies| ==>
              predict(vacancies[i]) == Some(KeptSalaries(vacancies, predict)[i])
    decreases |vacancies|
  {
    if |vacancies| > 0 {
      var n := |vacancies|;
      var init := vacancies[..n - 1];
      KeptSalariesAll(init, predict);
      var kept := KeptSalaries(vacancies, predict);
      assert kept == KeptSalaries(init, predict) + [predict(vacancies[n - 1]).value];
      forall i | 0 <= i < n
        ensures predict(vacancies[i]) == Some(kept[i])
      {
        if i < n - 1 {
          assert init[i] == vacancies[i];
        }
      }
    }
  }

  /** The sum of a list of estimates (`numpy.mean` divides it by the count). */
  function Sum(xs: seq<real>): (r: real)
    decreases |xs|
  {
    if |xs| == 0 then 0.0 else Sum(xs[..|xs| - 1]) + xs[|xs| - 1]
  }

  /** Each estimate in [lo, hi] bounds the sum by count * lo and count * hi. */
  lemma {:induction false} SumBounds(xs: seq<real>, lo: real, hi: real)
    requires forall i :: 0 <= i < |xs| ==> lo <= xs[i] <= hi
    ensures (|xs| as real) * lo <= Sum(xs) <= (|xs| as real) * hi
    decreases |xs|
  {
    if |xs| > 0 {
      var init := xs[..|xs| - 1];
      assert forall i :: 0 <= i < |init| ==> init[i] == xs[i];
      var n := |init|;
      SumBounds(init, lo, hi);
      assert |xs| == n + 1;
      ScaleByOneMore(n, lo);
      ScaleByOneMore(n, hi);
    }
  }

  /** (k + 1) * x == k * x + x, kept apart so that the step of `SumBounds`
      needs no non-linear reasoning of its own. */
  lemma ScaleByOneMore(k: nat, x: real)
    ensures ((k + 1) as real) * x == (k as real) * x + x
  {
  }

  /** `numpy.mean` on exact reals: defined only for a non-empty list. */
  function Mean(xs: seq<real>): (r: real)
    requires |xs| > 0
    ensures (forall i :: 0 <= i < |xs| ==> xs[i] == xs[0]) ==> r == xs[0]
  {
    var n := |xs| as real;
    assert (forall i :: 0 <= i < |xs| ==> xs[i] == xs[0]) ==> Sum(xs) / n == xs[0] by {
      if forall i :: 0 <= i < |xs| ==> xs[i] == xs[0] {
        SumBounds(xs, xs[0], xs[0]);
        QuotientWithinBounds(Sum(xs), n, xs[0], xs[0]);
      }
    }
    Sum(xs) / n
  }

  /** The mean of estimates that all lie in [lo, hi] lies in [lo, hi]. */
  lemma MeanWithinBounds(xs: seq<real>, lo: real, hi: real)
    requires |xs| > 0
    requires forall i :: 0 <= i < |xs| ==> lo <= xs[i] <= hi
    ensures lo <= Mean(xs) <= hi
  {
    SumBounds(xs, lo, hi);
    QuotientWithinBounds(Sum(xs), |xs| as real, lo, hi);
  }

  /** Dividing a total in [n * lo, n * hi] by a positive count n gives a value
      in [lo, hi]. */
  lemma QuotientWithinBounds(total: real, n: real, lo: real, hi: real)
    requires n > 0.0
    requires n * lo <= total <= n * hi
    ensures lo <= total / n <= hi
  {
    assert total / n * n == total;
  }

  /** Python's `int(x)` for a float: truncation toward zero. */
  function TruncateToInt(x: real): (r: int)
    ensures 0.0 <= x ==> 0 <= r && r as real <= x < r as real + 1.0
    ensures x < 0.0 ==> r <= 0 && r as real - 1.0 < x <= r as real
  {
    if x >= 0.0 then x.Floor else -((-x).Floor)
  }

  /** `int(numpy.mean(salaries))`: the mean truncated toward zero, or the
      error that `int` raises on the mean of an empty list. */
  function AverageSalary(salaries: seq<real>): (r: Result<int, AnalyticsError>)
    ensures r.Failure? <==> salaries == []
    ensures r.Success? ==> r.value == TruncateToInt(Mean(salaries))
  {
    if |salaries| == 0 then Failure(MeanOfEmptyList) else Success(TruncateToInt(Mean(salaries)))
  }

  /** For whole-number bounds lo and hi on every kept estimate, the reported
      average salary also lies in [lo, hi]: truncation toward zero never
      leaves that interval. */
  lemma AverageSalaryWithinBounds(salaries: seq<real>, lo: int, hi: int)
    requires |salaries| > 0
    requires forall i :: 0 <= i < |salaries| ==> lo as real <= salaries[i] <= hi as real
    ensures AverageSalary(salaries).Success?
    ensures lo <= AverageSalary(salaries).value <= hi
  {
    MeanWithinBounds(salaries, lo as real, hi as real);
  }
}
