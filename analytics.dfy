/** The per-language aggregation of both boards.

    Each board's search endpoint is abstracted as a total function from the
    request to the decoded response, so the model sees exactly the JSON fields
    the aggregators read. A run walks the fixed language list in order and
    builds one record per language; the first language whose kept estimates
    are empty makes `int(numpy.mean([]))` raise, which aborts the whole run. */
module Analytics {
  import opened Wrappers
  import opened Salary
  import opened Statistics

  /** The languages searched for, in report order. */
  const Languages: seq<string> :=
    ["JavaScript", "Java", "Python", "Ruby", "PHP", "C++", "C#", "C", "Go"]

  /** The record stored for one language. */
  datatype LanguageStats = LanguageStats(vacanciesFound: int, vacanciesProcessed: nat, averageSalary: int)

  /** One key/value pair of the result dictionary. */
  datatype Entry = Entry(language: string, stats: LanguageStats)

  /** The result dictionary, as its pairs in insertion order. */
  type Report = seq<Entry>

  /** A decoded HeadHunter response: `found`, `pages` and `items`. */
  datatype HHPage = HHPage(found: int, pages: int, items: seq<HHVacancy>)

  /** A decoded SuperJob response: `total` and `objects`. */
  datatype SJPage = SJPage(total: int, objects: seq<SJVacancy>)

  /** HeadHunter's search for one language at one page index. */
  type HHFetch = (string, int) -> HHPage

  /** SuperJob's search for one language (a single request, no page index). */
  type SJFetch = string -> SJPage

  /** The names in the language list are pairwise different, so appending one
      entry per language builds the same dictionary as assigning by key. */
  lemma LanguagesDistinct()
    ensures forall i, j :: 0 <= i < j < |Languages| ==> Languages[i] != Languages[j]
  {
  }

  // ---------------------------------------------------------------------
  // The report over the language list, shared by both boards
  // ---------------------------------------------------------------------

  /** The dictionary built by visiting `languages` in order, or the error of
      the first language whose statistics could not be computed. */
  function RunReport(languages: seq<string>, statsOf: string -> Result<LanguageStats, AnalyticsError>)
    : (r: Result<Report, AnalyticsError>)
    ensures r.Success? ==> |r.value| == |languages|
    ensures r.Success? ==> forall i :: 0 <= i < |languages| ==>
              r.value[i].language == languages[i] && statsOf(languages[i]) == Success(r.value[i].stats)
    decreases |languages|
  {
    if |languages| == 0 then Success([])
    else
      var language := languages[|languages| - 1];
      match RunReport(languages[..|languages| - 1], statsOf)
      case Failure(e) => Failure(e)
      case Success(report) =>
        match statsOf(language)
        case Failure(e) => Failure(e)
        case Success(stats) => Success(report + [Entry(language, stats)])
  }

  /** A run succeeds exactly when every language's statistics can be computed. */
  lemma {:induction false} AnalyticsSucceedsIff(
    languages: seq<string>, statsOf: string -> Result<LanguageStats, AnalyticsError>)
    ensures RunReport(languages, statsOf).Success? <==>
              forall i :: 0 <= i < |languages| ==> statsOf(languages[i]).Success?
    decreases |languages|
  {
    if |languages| > 0 {
      var init := languages[..|languages| - 1];
      AnalyticsSucceedsIff(init, statsOf);
      assert forall i :: 0 <= i < |init| ==> init[i] == languages[i];
    }
  }

  /** Once a prefix of the language list has failed, the rest of the list is
      never visited and the run ends with that failure. */
  lemma {:induction false} AnalyticsFailurePersists(
    languages: seq<string>, k: nat, statsOf: string -> Result<LanguageStats, AnalyticsError>)
    requires k <= |languages|
    requires RunReport(languages[..k], statsOf).Failure?
    ensures RunReport(languages, statsOf) == RunReport(languages[..k], statsOf)
    decreases |languages| - k
  {
    if k < |languages| {
      var init := languages[..|languages| - 1];
      assert init[..k] == languages[..k];
      AnalyticsFailurePersists(init, k, statsOf);
    } else {
      assert languages[..k] == languages;
    }
  }

  /** Visiting one more language after a successful prefix either appends
      that language's entry or fails with its error, ending the run. */
  lemma AnalyticsStep(
    languages: seq<string>, k: nat, statsOf: string -> Result<LanguageStats, AnalyticsError>, report: Report)
    requires k < |languages|
    requires RunReport(languages[..k], statsOf) == Success(report)
    ensures statsOf(languages[k]).Success? ==>
              RunReport(languages[..k + 1], statsOf) == Success(report + [Entry(languages[k], statsOf(languages[k]).value)])
    ensures statsOf(languages[k]).Failure? ==>
              RunReport(languages, statsOf) == Failure(statsOf(languages[k]).error)
  {
    assert languages[..k + 1][..k] == languages[..k];
    if statsOf(languages[k]).Failure? {
      AnalyticsFailurePersists(languages, k + 1, statsOf);
    }
  }

  /** A successful report over the language list has one entry per language,
      in list order, under pairwise different keys. */
  lemma ReportKeysDistinct(statsOf: string -> Result<LanguageStats, AnalyticsError>)
    requires RunReport(Languages, statsOf).Success?
    ensures |RunReport(Languages, statsOf).value| == 9
    ensures forall i, j :: 0 <= i < j < |RunReport(Languages, statsOf).value| ==>
              RunReport(Languages, statsOf).value[i].language != RunReport(Languages, statsOf).value[j].language
  {
    LanguagesDistinct();
  }

  // ---------------------------------------------------------------------
  // HeadHunter
  // ---------------------------------------------------------------------

  /** The vacancies collected for `language`: the items of page indices
      1, 2, ..., pages - 1, concatenated in that order. */
  function PagesItems(fetch: HHFetch, language: string, pages: int): (r: seq<HHVacancy>)
    ensures pages <= 1 ==> r == []
    decreases pages
  {
    if pages <= 1 then [] else PagesItems(fetch, language, pages - 1) + fetch(language, pages - 1).items
  }

  /** A vacancy is collected exactly when it is an item of some page index in
      1 .. pages - 1; in particular nothing is collected when pages <= 1. */
  lemma {:induction false} PagesItemsMembership(fetch: HHFetch, language: string, pages: int, v: HHVacancy)
    ensures v in PagesItems(fetch, language, pages) <==>
              exists p :: 1 <= p < pages && v in fetch(language, p).items
    decreases pages
  {
    if pages > 1 {
      PagesItemsMembership(fetch, language, pages - 1, v);
      if v in fetch(language, pages - 1).items {
        assert 1 <= pages - 1 < pages;
      }
    }
  }

  /** Only the items of page indices 1 .. pages - 1 are read: two searches
      that agree on those pages collect the same vacancies, in the same order,
      whatever they return for page 0 or for later pages. */
  lemma {:induction false} PagesItemsFrame(f: HHFetch, g: HHFetch, language: string, pages: int)
    requires forall p :: 1 <= p < pages ==> f(language, p).items == g(language, p).items
    ensures PagesItems(f, language, pages) == PagesItems(g, language, pages)
    decreases pages
  {
    if pages > 1 {
      PagesItemsFrame(f, g, language, pages - 1);
    }
  }

  /** The page loop of `get_hh_analytics_data`: request page indices 1, 2,
      ..., pages - 1 in order and append each page's items. */
  method CollectPages(fetch: HHFetch, language: string, pages: int) returns (vacancies: seq<HHVacancy>)
    ensures vacancies == PagesItems(fetch, language, pages)
  {
    vacancies := [];
    var page := 1;
    while page < pages
      invariant 1 <= page
      invariant page == 1 || page <= pages
      invariant vacancies == PagesItems(fetch, language, page)
    {
      vacancies := vacancies + fetch(language, page).items;
      page := page + 1;
    }
  }

  /** The HeadHunter record for one language: the first request (page index
      1) supplies only `found` and `pages`; the estimates come from the
      collected pages. */
  function HHLanguageStats(fetch: HHFetch, language: string): (r: Result<LanguageStats, AnalyticsError>)
    ensures r.Failure? ==> r.error == MeanOfEmptyList
    ensures r.Success? ==> r.value.vacanciesFound == fetch(language, 1).found
    ensures r.Success? ==>
              0 < r.value.vacanciesProcessed <= |PagesItems(fetch, language, fetch(language, 1).pages)|
  {
    var first := fetch(language, 1);
    var salaries := KeptSalaries(PagesItems(fetch, language, first.pages), PredictRubHHSalary);
    match AverageSalary(salaries)
    case Failure(e) => Failure(e)
    case Success(average) => Success(LanguageStats(first.found, |salaries|, average))
  }

  /** The HeadHunter record as a function of the language, for `RunReport`. */
  function HHStatsOf(fetch: HHFetch): string -> Result<LanguageStats, AnalyticsError>
  {
    language => HHLanguageStats(fetch, language)
  }

  /** The HeadHunter record of `language`, given the estimates kept from its
      collected pages: the first request's `found`, their count and their
      average, or the error of their average. */
  lemma HHRecord(fetch: HHFetch, language: string, salaries: seq<real>)
    requires salaries == KeptSalaries(PagesItems(fetch, language, fetch(language, 1).pages), PredictRubHHSalary)
    ensures AverageSalary(salaries).Failure? ==>
              HHStatsOf(fetch)(language) == Failure(AverageSalary(salaries).error)
    ensures AverageSalary(salaries).Success? ==>
              HHStatsOf(fetch)(language) ==
                Success(LanguageStats(fetch(language, 1).found, |salaries|, AverageSalary(salaries).value))
  {
  }

  /** What a HeadHunter record means: it exists exactly when some collected
      vacancy has a kept rouble estimate; `vacanciesProcessed` counts the kept
      estimates and the average is their truncated mean. */
  lemma HHLanguageStatsMeaning(fetch: HHFetch, language: string)
    ensures var items := PagesItems(fetch, language, fetch(language, 1).pages);
            HHLanguageStats(fetch, language).Success? <==>
              exists i :: 0 <= i < |items| && IsKept(PredictRubHHSalary(items[i]))
    ensures var items := PagesItems(fetch, language, fetch(language, 1).pages);
            var salaries := KeptSalaries(items, PredictRubHHSalary);
            HHLanguageStats(fetch, language).Success? ==>
              && HHLanguageStats(fetch, language).value.vacanciesProcessed == |salaries|
              && HHLanguageStats(fetch, language).value.averageSalary == TruncateToInt(Mean(salaries))
  {
    var items := PagesItems(fetch, language, fetch(language, 1).pages);
    KeptSalariesEmptyIff(items, PredictRubHHSalary);
    if HHLanguageStats(fetch, language).Success? {
      var i :| 0 <= i < |items| && IsKept(PredictRubHHSalary(items[i]));
      assert 0 <= i < |PagesItems(fetch, language, fetch(language, 1).pages)|
          && IsKept(PredictRubHHSalary(PagesItems(fetch, language, fetch(language, 1).pages)[i]));
    }
  }

  /** A HeadHunter record depends only on the first response's `found` and
      `pages` and on the items of page indices 1 .. pages - 1. */
  lemma HHLanguageStatsFrame(f: HHFetch, g: HHFetch, language: string)
    requires f(language, 1).found == g(language, 1).found
    requires f(language, 1).pages == g(language, 1).pages
    requires forall p :: 1 <= p < f(language, 1).pages ==> f(language, p).items == g(language, p).items
    ensures HHLanguageStats(f, language) == HHLanguageStats(g, language)
  {
    PagesItemsFrame(f, g, language, f(language, 1).pages);
  }

  /** `get_hh_analytics_data`: for each language in order, read `found` and
      `pages` from a first request, concatenate the items of page indices
      1 .. pages - 1, keep the truthy rouble estimates, and store the count and
      the truncated mean; an empty list of estimates aborts the run. */
  method GetHHAnalyticsData(fetch: HHFetch) returns (result: Result<Report, AnalyticsError>)
    ensures result == RunReport(Languages, HHStatsOf(fetch))
  {
    var langsData: Report := [];
    for k := 0 to |Languages|
      invariant RunReport(Languages[..k], HHStatsOf(fetch)) == Success(langsData)
    {
      var language := Languages[k];
      var langData := fetch(language, 1);
      var vacanciesNum := langData.found;
      var pages := langData.pages;

      var langVacancies := CollectPages(fetch, language, pages);
      var salaries := KeepSalaries(langVacancies, PredictRubHHSalary);

      var average := AverageSalary(salaries);
      HHRecord(fetch, language, salaries);
      AnalyticsStep(Languages, k, HHStatsOf(fetch), langsData);
      if average.Failure? {
        return Failure(average.error);
      }
      var avgSalary := average.value;
      var vacanciesStudied := |salaries|;
      langsData := langsData + [Entry(language, LanguageStats(vacanciesNum, vacanciesStudied, avgSalary))];
    }
    assert Languages[..|Languages|] == Languages;
    result := Success(langsData);
  }

  // ---------------------------------------------------------------------
  // SuperJob
  // ---------------------------------------------------------------------

  /** The SuperJob record for one language, from its single response. */
  function SJLanguageStats(fetch: SJFetch, language: string): (r: Result<LanguageStats, AnalyticsError>)
    ensures r.Failure? ==> r.error == MeanOfEmptyList
    ensures r.Success? ==> r.value.vacanciesFound == fetch(language).total
    ensures r.Success? ==> 0 < r.value.vacanciesProcessed <= |fetch(language).objects|
  {
    var response := fetch(language);
    var salaries := KeptSalaries(response.objects, PredictRubSJSalary);
    match AverageSalary(salaries)
    case Failure(e) => Failure(e)
    case Success(average) => Success(LanguageStats(response.total, |salaries|, average))
  }

  /** The SuperJob record as a function of the language, for `RunReport`. */
  function SJStatsOf(fetch: SJFetch): string -> Result<LanguageStats, AnalyticsError>
  {
    language => SJLanguageStats(fetch, language)
  }

  /** The SuperJob record of `language`, given the estimates kept from its
      response: the response's `total`, their count and their average, or the
      error of their average. */
  lemma SJRecord(fetch: SJFetch, language: string, salaries: seq<real>)
    requires salaries == KeptSalaries(fetch(language).objects, PredictRubSJSalary)
    ensures AverageSalary(salaries).Failure? ==>
              SJStatsOf(fetch)(language) == Failure(AverageSalary(salaries).error)
    ensures AverageSalary(salaries).Success? ==>
              SJStatsOf(fetch)(language) ==
                Success(LanguageStats(fetch(language).total, |salaries|, AverageSalary(salaries).value))
  {
  }

  /** What a SuperJob record means: it exists exactly when some returned
      vacancy has a kept rouble estimate; `vacanciesProcessed` counts the kept
      estimates and the average is their truncated mean. */
  lemma SJLanguageStatsMeaning(fetch: SJFetch, language: string)
    ensures var objects := fetch(language).objects;
            SJLanguageStats(fetch, language).Success? <==>
              exists i :: 0 <= i < |objects| && IsKept(PredictRubSJSalary(objects[i]))
    ensures var objects := fetch(language).objects;
            var salaries := KeptSalaries(objects, PredictRubSJSalary);
            SJLanguageStats(fetch, language).Success? ==>
              && SJLanguageStats(fetch, language).value.vacanciesProcessed == |salaries|
              && SJLanguageStats(fetch, language).value.averageSalary == TruncateToInt(Mean(salaries))
  {
    var objects := fetch(language).objects;
    KeptSalariesEmptyIff(objects, PredictRubSJSalary);
    if SJLanguageStats(fetch, language).Success? {
      var i :| 0 <= i < |objects| && IsKept(PredictRubSJSalary(objects[i]));
      assert 0 <= i < |fetch(language).objects| && IsKept(PredictRubSJSalary(fetch(language).objects[i]));
    }
  }

  /** `get_sj_analytics_data`: for each language in order, one request gives
      `total` and `objects`; keep the truthy rouble estimates and store the
      count and the truncated mean; an empty list of estimates aborts the run. */
  method GetSJAnalyticsData(fetch: SJFetch) returns (result: Result<Report, AnalyticsError>)
    ensures result == RunReport(Languages, SJStatsOf(fetch))
  {
    var langData: Report := [];
    for k := 0 to |Languages|
      invariant RunReport(Languages[..k], SJStatsOf(fetch)) == Success(langData)
    {
      var language := Languages[k];
      var response := fetch(language);
      var vacancies := response.objects;
      var vacanciesNum := response.total;

      var salaries := KeepSalaries(vacancies, PredictRubSJSalary);

      var average := AverageSalary(salaries);
      SJRecord(fetch, language, salaries);
      AnalyticsStep(Languages, k, SJStatsOf(fetch), langData);
      if average.Failure? {
        return Failure(average.error);
      }
      var avgSalary := average.value;
      var vacanciesStudied := |salaries|;
      langData := langData + [Entry(language, LanguageStats(vacanciesNum, vacanciesStudied, avgSalary))];
    }
    assert Languages[..|Languages|] == Languages;
    result := Success(langData);
  }
}
