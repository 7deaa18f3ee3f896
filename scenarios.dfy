/** Worked cases of the aggregation on small, fixed search responses. */
module Scenarios {
  import opened Wrappers
  import opened Salary
  import opened Statistics
  import opened Analytics

  /** Two rouble vacancies: 1000..2000 (estimate 1500) and only a maximum of
      4000 (estimate 3200). */
  function TwoRoubleVacancies(): seq<HHVacancy> {
    [HHVacancy(Some(HHSalary(Some(1000), Some(2000), "RUR"))),
     HHVacancy(Some(HHSalary(None, Some(4000), "RUR")))]
  }

  /** A search that reports `found` and `pages` and returns the two rouble
      vacancies on every page index. */
  function TwoItemSearch(found: int, pages: int): HHFetch {
    (language: string, page: int) => HHPage(found, pages, TwoRoubleVacancies())
  }

  /** With two pages, page index 1 is collected: estimates 1500 and 3200 are
      kept and the average is 2350, whatever `found` says. */
  lemma HHTwoPageScenario(found: int)
    ensures HHLanguageStats(TwoItemSearch(found, 2), "Python") == Success(LanguageStats(found, 2, 2350))
  {
    var fetch := TwoItemSearch(found, 2);
    var items := TwoRoubleVacancies();
    assert PagesItems(fetch, "Python", 1) == [];
    assert PagesItems(fetch, "Python", 2) == items;
    assert PredictRubHHSalary(items[0]) == Some(1500.0);
    assert PredictRubHHSalary(items[1]) == Some(3200.0);
    assert items[..1][..0] == [];
    assert KeptSalaries(items[..1], PredictRubHHSalary) == [1500.0];
    assert items[..1] == items[..|items| - 1];
    var salaries := KeptSalaries(items, PredictRubHHSalary);
    assert salaries == [1500.0, 3200.0];
    assert [1500.0, 3200.0][..1] == [1500.0];
    assert Sum(salaries) == 4700.0;
    assert Mean(salaries) == 2350.0;
  }

  /** A response that reports a single page collects nothing (page indices
      1 .. pages - 1 is empty), so the mean of no estimates fails even though
      the response itself carries two rouble vacancies. */
  lemma HHOnePageFails(found: int)
    ensures HHLanguageStats(TwoItemSearch(found, 1), "Python") == Failure(MeanOfEmptyList)
  {
    assert PagesItems(TwoItemSearch(found, 1), "Python", 1) == [];
  }

  /** `vacanciesFound` is not an upper bound on `vacanciesProcessed`. */
  lemma ProcessedMayExceedFound()
    ensures HHLanguageStats(TwoItemSearch(0, 2), "Python").Success?
    ensures HHLanguageStats(TwoItemSearch(0, 2), "Python").value.vacanciesProcessed >
            HHLanguageStats(TwoItemSearch(0, 2), "Python").value.vacanciesFound
  {
    HHTwoPageScenario(0);
  }

  /** A SuperJob response with a rouble vacancy 1000..2000 and a dollar
      vacancy: the dollar one is not processed and does not move the mean. */
  lemma SJForeignCurrencyExcluded(total: int)
    ensures var objects := [SJVacancy(Some(1000), Some(2000), "rub"), SJVacancy(Some(0), Some(5000), "usd")];
            SJLanguageStats((language: string) => SJPage(total, objects), "Go") ==
              Success(LanguageStats(total, 1, 1500))
  {
    var objects := [SJVacancy(Some(1000), Some(2000), "rub"), SJVacancy(Some(0), Some(5000), "usd")];
    assert PredictRubSJSalary(objects[0]) == Some(1500.0);
    assert PredictRubSJSalary(objects[1]) == None;
    assert objects[..1][..0] == [];
    assert KeptSalaries(objects[..1], PredictRubSJSalary) == [1500.0];
    assert objects[..1] == objects[..|objects| - 1];
    var salaries := KeptSalaries(objects, PredictRubSJSalary);
    assert salaries == [1500.0];
    assert salaries[..0] == [];
    assert Sum(salaries) == 1500.0;
  }
}
