# IT job salary analytics — a Dafny model of the estimate and aggregation core

The program asks two Russian job boards, HeadHunter and SuperJob, for
programmer vacancies in each of nine languages. It turns each vacancy's salary
range into one estimated figure and reports three numbers per language:
vacancies found, vacancies processed and the average estimated salary.

This project models that core in Dafny:

- `salary.dfy` (module `Salary`): the estimator `calculate_salary` and the two
  rouble-gated adapters `predict_rub_hh_salary` and `predict_rub_sj_salary`.
  These are pure functions. A bound is `Option<int>` (JSON `null` or an
  amount). Python truthiness is written out: a bound of `0` counts as missing,
  and an estimate of `0.0` is dropped by the aggregators' `if salary:`.
- `statistics.dfy` (module `Statistics`): the kept-estimates filter, the sum
  and mean, and Python's `int(...)`, which truncates toward zero.
  `int(numpy.mean([]))` raises, so an empty list gives the error
  `MeanOfEmptyList`.
- `analytics.dfy` (module `Analytics`): the language list and HeadHunter's
  page concatenation. It also holds the two aggregators,
  `get_hh_analytics_data` and `get_sj_analytics_data`, as methods with loops.
  Each method is proved equal to one specification function: `RunReport` over
  the language list, with one per-language record function per board. The
  page loop and the filtering loop are methods of their own, each proved
  equal to the function that specifies it (`PagesItems`, `KeptSalaries`).
- `scenarios.dfy` (module `Scenarios`): worked cases on fixed responses.
- `wrappers.dfy` (module `Wrappers`): `Option` and `Result`.

The network is a parameter. The HeadHunter search is a total function from
(language, page index) to the decoded `found`, `pages` and `items`. The
SuperJob search is a total function from the language to the decoded `total`
and `objects`. The result dictionary is a sequence of (language, record)
pairs in insertion order. The language names are pairwise distinct, so this
sequence has the same contents as the dictionary the program builds
(`LanguagesDistinct`, `ReportKeysDistinct`).

Three behaviours of the code are easy to misread, and the model keeps them as written:

- HeadHunter has no "no data" fallback for an empty list of estimates.
  `int(numpy.mean([]))` raises and the whole run aborts, on both boards.
- SuperJob makes exactly one request per language. There is no pagination and
  no page cap.
- HeadHunter's first request uses page index 1 (the default argument), and
  only its `found` and `pages` are read. The loop then collects page indices
  1 .. pages - 1. When a response reports one page, nothing is collected and
  the run fails, even if that response holds rouble vacancies
  (`Scenarios.HHOnePageFails`).

## Model

| member | source | states |
|---|---|---|
| `Salary.Truthy` | main.py:25-30 | A bound is falsy exactly when it is null or 0. |
| `Salary.IsKept` | main.py:110-112 | An estimate fails `if salary:` exactly when it is `None` or 0.0. |
| `Salary.CalculateSalary` | main.py:24-30 | An estimate is present exactly when some bound is truthy (non-null and non-zero). With both bounds it is their mean, so it lies between min and max when min <= max. With only a minimum it is min × 1.2. With only a maximum it is max × 0.8. |
| `Salary.ZeroBoundIsAbsent` | main.py:25-30 | A bound of 0 gives the same estimate as a missing bound, on either side. |
| `Salary.KeptIffSomePositiveBound` | main.py:24-30 | For non-negative bounds, the estimate passes the truthiness filter exactly when some bound is positive, and it is then positive. A lone minimum is raised and a lone maximum is lowered. |
| `Salary.ZeroEstimateIsDropped` | main.py:110-112 | Bounds −5000 and 5000 give a present estimate of 0.0, which the `if salary:` filter drops. |
| `Salary.PredictRubHHSalary` | main.py:73-80 | No estimate for a null salary object. No estimate for a currency other than "RUR", whatever the amounts. Otherwise the estimator's result for `from` and `to`. |
| `Salary.PredictRubSJSalary` | main.py:83-89 | No estimate for a currency other than "rub", whatever the amounts. Otherwise the estimator's result for `payment_from` and `payment_to`. |
| `Statistics.KeptSalaries` | main.py:107-112 | The kept estimates are never more than the vacancies, and none of them is zero. |
| `Statistics.KeepSalaries` | main.py:107-112 | The filtering loop returns exactly the kept estimates of the vacancies, in vacancy order. The SuperJob aggregator runs the same loop at main.py:148-153. |
| `Statistics.KeptSalariesOrigin` | main.py:148-153 | Every kept estimate is the estimate of one of the vacancies. |
| `Statistics.KeptSalariesAppend` | main.py:107-112 | Filtering distributes over concatenation: kept(a + b) = kept(a) + kept(b), in order. |
| `Statistics.KeptSalariesEmptyIff` | main.py:107-114 | Nothing is kept exactly when no vacancy has a present, non-zero estimate. This is the case where the mean raises. |
| `Statistics.KeptSalariesAll` | main.py:148-153 | If every vacancy has a kept estimate, all are kept, one for one and in vacancy order. |
| `Statistics.SumBounds` | main.py:114 | Estimates in [lo, hi] have a sum between count × lo and count × hi. |
| `Statistics.Mean` | main.py:114 | `numpy.mean` is defined for a non-empty list. The mean of a list whose entries are all equal is that entry. |
| `Statistics.MeanWithinBounds` | main.py:114 | The mean of estimates in [lo, hi] lies in [lo, hi]. |
| `Statistics.TruncateToInt` | main.py:114 | `int()` truncates toward zero. The result is within 1 of its argument, on the side of zero, and never of the opposite sign. |
| `Statistics.AverageSalary` | main.py:155 | The average fails exactly on an empty list. Otherwise it is the mean truncated toward zero. |
| `Statistics.AverageSalaryWithinBounds` | main.py:114 | If every kept estimate lies in [lo, hi] for whole numbers lo and hi, the reported average succeeds and lies in [lo, hi]. Truncation toward zero never leaves that interval. |
| `Analytics.LanguagesDistinct` | main.py:8-18 | The nine language names are pairwise different. |
| `Analytics.RunReport` | main.py:95-121 | A successful report has one entry per language. Entry i carries language i and that language's record. |
| `Analytics.AnalyticsSucceedsIff` | main.py:134-162 | A run succeeds exactly when every language's record can be computed. |
| `Analytics.AnalyticsFailurePersists` | main.py:95-114 | Once a language has failed, the later languages are never visited, and the run ends with that failure. |
| `Analytics.AnalyticsStep` | main.py:114-121 | After a successful prefix, the next language either appends its entry or aborts the whole run with its error. |
| `Analytics.ReportKeysDistinct` | main.py:117-121 | A successful report has exactly nine entries under pairwise different keys. |
| `Analytics.PagesItems` | main.py:102-105 | Nothing is collected when the first response reports at most one page. |
| `Analytics.CollectPages` | main.py:102-105 | The page loop returns exactly the items of page indices 1 .. pages - 1, concatenated in page order. |
| `Analytics.PagesItemsMembership` | main.py:102-105 | A vacancy is collected exactly when it is an item of some page index in 1 .. pages - 1. So nothing is collected when pages <= 1. |
| `Analytics.PagesItemsFrame` | main.py:97-105 | Only page indices 1 .. pages - 1 are read. Two searches that agree on them collect the same sequence, whatever page 0 or later pages hold. |
| `Analytics.HHLanguageStats` | main.py:97-121 | A HeadHunter record fails only with `MeanOfEmptyList`. On success, found is the first response's `found` and processed is positive and never more than the collected vacancies. |
| `Analytics.HHLanguageStatsMeaning` | main.py:97-121 | A HeadHunter record exists exactly when some collected vacancy has a kept rouble estimate. Processed is then the number of kept estimates, and the average is their mean truncated toward zero. |
| `Analytics.HHLanguageStatsFrame` | main.py:97-104 | A HeadHunter record depends only on the first response's `found` and `pages` and on the items of page indices 1 .. pages - 1. |
| `Analytics.GetHHAnalyticsData` | main.py:92-122 | The loops return exactly the specified report: languages in list order, page items concatenated, the filter, the count and the truncated mean. The run fails on the first language with no kept estimate. |
| `Analytics.SJLanguageStats` | main.py:142-162 | A SuperJob record fails only with `MeanOfEmptyList`. On success, found is the response's `total` and processed is positive and never more than the returned vacancies. |
| `Analytics.SJLanguageStatsMeaning` | main.py:142-162 | A SuperJob record exists exactly when some returned vacancy has a kept rouble estimate. Processed is then the number of kept estimates, and the average is their mean truncated toward zero. |
| `Analytics.GetSJAnalyticsData` | main.py:125-164 | The loops return exactly the specified report from one response per language. The run fails on the first language with no kept estimate. |
| `Scenarios.HHTwoPageScenario` | main.py:97-121 | Page index 1 holds salaries 1000..2000 RUR and only-max 4000 RUR. The estimates are 1500 and 3200, processed is 2 and the average is 2350, whatever `found` is. |
| `Scenarios.HHOnePageFails` | main.py:100-114 | A response that reports one page collects nothing, so the run fails, even when that response holds rouble vacancies. |
| `Scenarios.ProcessedMayExceedFound` | main.py:99-121 | Processed can exceed found: found is taken from the API as is. |
| `Scenarios.SJForeignCurrencyExcluded` | main.py:145-162 | A dollar vacancy is neither counted nor averaged. Only the rouble one contributes 1500. |

## Left out

- HTTP transport is not modelled. This covers `requests.get`, `raise_for_status` and the query and header parameters (search text, area, town, period, page, the API key header). Searches are total function parameters, so a failed request, which aborts the real run, has no counterpart.
- The HeadHunter search is a pure function, so the first request (page index 1) and the loop's request for page index 1 return the same response. Two real requests can differ between calls.
- Credential loading (`load_dotenv`, `SJ_SECRET_KEY` from the environment) is not modelled: it is environment input and output.
- Table rendering (`print_result_in_table`) and `main` are not modelled: they are console output through a table-drawing library.
- Floating point is not modelled. The estimator's `* 1.2`, `* 0.8` and `/ 2` and `numpy.mean` are exact reals, so IEEE rounding and the NaN warning `numpy.mean([])` emits before `int()` raises have no counterpart.
- Salary bounds are integers, as the boards' JSON carries them. A fractional amount is not modelled.
- Missing JSON keys (a `KeyError` in the source) are not modelled. Each vacancy record always has the fields the adapters read.
