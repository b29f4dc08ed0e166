# Portfolio allocation core, modelled in Dafny

This project models the computational core of a personal-finance portfolio
recommender and proves properties of that model. It covers five parts:

- **The allocation engine** (`recommend_allocation`, module `Allocation`).
  It takes one of three fixed risk templates of five weights (FD, Bank, SIP,
  Gold, Silver). It zeroes the deposit instruments the user did not select,
  rescales the weights to 100 and rounds each to one decimal. It then
  projects a value for each instrument and computes a total ROI.
- **The return calculators** (module `Calculators`): fixed deposit with
  annual compounding, bank savings with monthly or annual compounding, SIP as
  the future value of an annuity due, and a metal's percentage change.
- **The metal price lookup** (`fetch_metal_price`):
  - Module `PriceText` covers extracting a number from text. That is the
    first match of `[\d,]+\.?\d*`, with its commas removed, read by `float()`.
  - Module `PriceFetch` covers the rest: a per-(asset, country) cache with a
    600-second lifetime, the DuckDuckGo `Answer` then `RelatedTopics`
    preference, the `seed` table when no positive price is found, and the
    `fallback` quote with an error message when the request raises.
- **The history table's "Top Allocations" cell** (`getTopAllocations`,
  module `TopAllocations`): it keeps the positive weights, sorts them in
  descending order (stable sort), takes three and joins their labels.
- **The profile form's handlers** (module `UserForm`): the instrument toggle,
  the rate update and the checks made before submitting.

All arithmetic is over `real`. Rounding to one decimal is Python's
round-half-to-even, applied to the exact value. The outside world comes in as
parameters:

- the HTTP request's outcome (`PriceFetch.Response`);
- the clock (`now`);
- the ISO timestamp text (`stamp`);
- JavaScript's `parseFloat` result (`Option<real>`, `None` for NaN);
- number-to-text conversion (`show`).

Facts about the code that shape the model. Statements about values below
are about the real-number model, not about Python's binary floats:

- **Metal baseline.** The baseline price is `current_price * 0.95`
  (backend/utils.py:252); no historical price is looked up. So, over exact
  reals, a metal's ROI is always 100/19 % (or 0 when the price is 0).
- **No input validation.** The calculators do not check their inputs.
  Over exact reals their one failure is division by zero, which the model
  turns into preconditions (calculators) or `Err(DivisionByZero)`
  (allocation). Python's own float failures are listed under "Left out".
- **SIP example.** `Calculators.SipExample` pins what
  `calc_sip_return(1000, 12, 12)` evaluates to: about 12809.33, with an ROI
  of about 6.744%.

## Model

| member | source | states |
|---|---|---|
| Calculators.GrowIsPow | backend/utils.py:112 | the closed form `principal * (1 + r)^n` is the balance compounded period by period |
| Calculators.RoiPercent | backend/utils.py:113 | the ROI is the percentage by which the invested amount grew: `value == invested * (1 + roi/100)` |
| Calculators.FdReturn | backend/utils.py:109-121 | the future value is the principal compounded yearly at `rate/100` for `years` years; the ROI recovers the future value from the principal; profit is future value minus principal |
| Calculators.BankReturn | backend/utils.py:123-141 | monthly compounding at `rate/12/100` over `12*years` months; without monthly compounding the result is exactly the fixed-deposit result; in both modes the ROI recovers the future value from the principal and profit is future value minus principal |
| Calculators.FdZeroRate | backend/utils.py:109-121 | at rate 0 a deposit keeps its value: ROI 0, profit 0 |
| Calculators.BankZeroRate | backend/utils.py:123-141 | at rate 0 the bank ROI is 0 in either compounding mode |
| Calculators.FdNeverLoses | backend/utils.py:109-121 | a positive principal at a non-negative rate never loses value |
| Calculators.FdExample | backend/utils.py:109-121 | (1000, 10%, 1 year) gives 1100, ROI 10, profit 100 |
| Calculators.DepositsClosedForm | backend/utils.py:150 | the annuity-due closed form equals the month-by-month balance of deposits made at the start of each month |
| Calculators.DepositsAtZeroRate | backend/utils.py:147-148 | at monthly rate 0 the balance is the sum of the deposits |
| Calculators.DepositsAtLeastInvested | backend/utils.py:143-153 | with positive deposits and a non-negative rate the balance is at least what was paid in |
| Calculators.AnnuityDue | backend/utils.py:145-150 | the source's future-value formula, with its zero-rate branch, is the month-by-month balance |
| Calculators.SipReturnOf | backend/utils.py:143-162 | total invested is `monthly_amount * months`; future value is the annuity-due balance; the ROI and profit are relative to the total invested |
| Calculators.SipZeroRate | backend/utils.py:147-153 | at rate 0 the SIP returns exactly what was invested, ROI 0 |
| Calculators.SipNeverLoses | backend/utils.py:143-162 | positive deposits at a non-negative rate never lose value |
| Calculators.SipExample | backend/utils.py:143-162 | (1000, 12%, 12 months) grows 12000 to about 12809.33, ROI about 6.744% |
| Calculators.MetalRoi | backend/utils.py:164-168 | a zero baseline gives ROI 0; otherwise the ROI is the percentage change from baseline to current |
| Calculators.MetalRoiExample | backend/utils.py:164-168 | `calc_metal_roi(6230.5, 5930.0)` is about 5.067% |
| Allocation.Template | backend/utils.py:176-182 | exactly the keys low, medium and high have a template; any other key fails naming that key; each template sums to 100 with Gold+Silver = 20 and every weight at least 5 |
| Allocation.Round1 | backend/utils.py:205 | rounding to one decimal moves a value by at most 0.05, keeps it non-negative, and lands on a tenth |
| Allocation.RiskPreferenceRule | backend/utils.py:172-182 | a missing risk preference behaves as "medium"; the weights fail exactly for an unknown key, with that key |
| Allocation.BaseWeightsTotal | backend/utils.py:184-199 | the selected base weights add up to between 20 and 100, so rescaling always happens |
| Allocation.ScaledWeightPositive | backend/utils.py:201-205 | a template weight (at least 5) never rounds to 0 after rescaling by a total of at most 100 |
| Allocation.SharesSumTo100 | backend/utils.py:201-205 | the exact rescaled shares add up to 100 |
| Allocation.RoundedSum | backend/utils.py:205 | five values adding up to 100 add up to 100 within 0.25 after each is rounded |
| Allocation.NormalizeSumsTo100 | backend/utils.py:201-205 | rescaled and rounded weights add up to 100 within 0.25 |
| Allocation.WeightsAreRoundedShares | backend/utils.py:184-205 | every final weight is `round(base * 100 / total, 1)` and lies within 0.05 of the exact share |
| Allocation.WeightsSumTo100 | backend/utils.py:184-205 | the final weights add up to 100 within 0.25 |
| Allocation.TemplateWeightsKept | backend/utils.py:185-198 | before rescaling, each selected FD, Bank or SIP and both metals carry exactly their template weight; an unselected deposit instrument carries 0 |
| Allocation.TemplateShares | backend/utils.py:185-207 | every final weight of a selected instrument or metal is its template weight times 100 over the selected total, rounded to one decimal |
| Allocation.SelectionRule | backend/utils.py:189-205 | FD, Bank and SIP have a positive weight exactly when selected and 0 otherwise; Gold and Silver are always positive |
| Allocation.Project | backend/utils.py:207-266 | there is an FD, Bank or SIP projection exactly when its weight is positive, and it is that instrument's projection of `investable * weight / 100`; Gold and Silver always get their metal projection of their amount; the total ROI is the portfolio's growth over the investable amount |
| Allocation.RecommendAllocation | backend/utils.py:170-271 | fails with the unknown key exactly when the risk key is unknown, and divides by zero exactly when the key is known and the investable amount is 0; otherwise the portfolio is the rescaled, rounded weights and the returns are projected from them with the default amount 100000 |
| Allocation.ReturnsFollowSelection | backend/utils.py:212-247 | the expected returns have an FD, Bank or SIP entry exactly when the user selected that instrument |
| Allocation.FdProjectionRule | backend/utils.py:213-224 | FD grows its amount once at the FD rate (default 6.5) and reports its ROI on its amount |
| Allocation.BankProjectionRule | backend/utils.py:226-235 | Bank compounds its amount monthly for 12 months at the Bank rate (default 3.5) and reports its ROI on its amount |
| Allocation.SipProjectionRule | backend/utils.py:237-247 | SIP pays `amount/12` at the start of each of 12 months at the SIP rate (default 12.0); the projected value is that month-by-month balance and the ROI is reported on the amount |
| Allocation.MetalProjectionRule | backend/utils.py:249-262 | a metal's ROI is 100/19 % unless its price is 0, in which case it is 0; the projected value grows the amount by that ROI; a missing price or source becomes 5000 or "fallback" |
| Allocation.SipInvestsItsAmount | backend/utils.py:237-240 | feeding `amount/12` for 12 months invests exactly the SIP's amount |
| Allocation.TotalRoiIsPortfolioGrowth | backend/utils.py:208-266 | `total_expected_roi_percent` is the growth of the sum of projected values over the investable amount |
| Allocation.MediumFdSipWeights | backend/utils.py:176-205 | medium risk with FD and SIP selected gives weights 29.4, 0, 47.1, 17.6 and 5.9 |
| Allocation.MediumFdSipExample | backend/utils.py:170-271 | the same user gets no Bank entry, FD and SIP entries, and weights summing to exactly 100 |
| Allocation.HighSipOnlyExample | backend/utils.py:176-205 | high risk with only SIP has shares 18.75 and 6.25, exact ties rounded to the even tenth: 0, 0, 75, 18.8 and 6.2 |
| Allocation.LowAllSelectedExample | backend/utils.py:176-207 | a low-risk user who selected every instrument keeps the low-risk template unchanged: 45, 25, 10, 15 and 5 |
| PriceText.MatchAt | backend/utils.py:47 | the greedy match at a position is a prefix of the text, fully matches the pattern, and no longer prefix does |
| PriceText.Search | backend/utils.py:47 | there is no match exactly when the text has no digit or comma; otherwise the match starts at the first digit or comma and is the longest match there |
| PriceText.StripCommas | backend/utils.py:49 | the result has no commas |
| PriceText.StripCommasKeepsOthers | backend/utils.py:49 | removing commas keeps every other character as often as it occurs |
| PriceText.StripRun | backend/utils.py:47-49 | a run of digits and commas becomes a digit string, non-empty exactly when the run has a digit |
| PriceText.MatchParses | backend/utils.py:47-53 | a match parses with `float()` after its commas are removed exactly when it holds a digit |
| PriceText.PriceFromText | backend/utils.py:46-54 | a price read from text is non-negative and comes from a match |
| PriceText.PriceFromTextSomeIff | backend/utils.py:46-54 | text yields a price exactly when it has a match holding a digit |
| PriceFetch.FallbackPrice | backend/utils.py:72-78 | the seed table gives 6230.50 exactly for "gold", 74.25 exactly for "silver" and 5000.0 for anything else, after lower-casing; always positive |
| PriceFetch.SeedTableIgnoresCase | backend/utils.py:72-78 | "Gold", "SILVER" and "platinum" get 6230.50, 74.25 and 5000.0 |
| PriceFetch.AnswerPrice | backend/utils.py:44-54 | `Answer` yields a price exactly when it is non-empty and its text yields one, and the price is the one read from that text; it is non-negative |
| PriceFetch.AnswerPriceIsFirstMatch | backend/utils.py:44-54 | `Answer` yields a price exactly when it is non-empty and its first match of the pattern holds a digit; the price is that match without commas, read as a decimal |
| PriceFetch.TopicPrice | backend/utils.py:57-67 | a price from the topics is non-negative |
| PriceFetch.TopicPriceIsFirstParsable | backend/utils.py:57-67 | the topic loop yields a value exactly when some topic parses to it and no earlier topic parses |
| PriceFetch.LivePrice | backend/utils.py:44-78 | a live price is positive; there is one exactly when `Answer` or the topic loop gives a positive number; a positive `Answer` number wins, and otherwise the live price is the topic loop's number |
| PriceFetch.LiveQuoteSources | backend/utils.py:40-88 | a lookup that gets a response quotes a positive first number of a non-empty `Answer` from "duckduckgo"; failing that, a positive number from the first parsable topic; failing both, the seed price from "seed" |
| PriceFetch.FetchMetalPrice | backend/utils.py:12-107 | a fresh cache entry is returned unchanged with the cache untouched; otherwise the quote is for the asset and location, per gram, positive and stamped. A raised request gives the seed price with source "fallback" and its error, and leaves the cache alone. Otherwise the source is "duckduckgo" exactly when a live price exists (else "seed" with the seed price), and the quote is cached under its key at the current time |
| PriceFetch.FetchKeepsCacheValid | backend/utils.py:12-107 | every cached quote is a positive per-gram price from "duckduckgo" or "seed" without error; every lookup keeps this and returns a positive per-gram price |
| PriceFetch.FreshEntryIsServed | backend/utils.py:17-20 | an entry stored less than 600 seconds ago is returned whatever the request would say |
| PriceFetch.RefetchWithinDuration | backend/utils.py:17-20 | after a lookup that reached the request without raising, the same asset and country within 600 seconds get the identical quote |
| PriceFetch.ExpiredEntryIsIgnored | backend/utils.py:17-20 | an entry 600 or more seconds old behaves as if absent |
| PriceFetch.CoordinatesAreIgnored | backend/utils.py:12-23 | latitude and longitude have no effect |
| PriceFetch.DefaultCountrySharesKey | backend/utils.py:14-23 | no country, an empty country and the country "default" share one cache key, while the location is "india", "india" and "default" |
| TopAllocations.Positive | frontend/src/components/HistoryTable.jsx:16 | every entry kept has a positive value |
| TopAllocations.PositiveIsFilter | frontend/src/components/HistoryTable.jsx:16 | the filter keeps every positive entry as often as it occurs and nothing else |
| TopAllocations.SortIsPermutation | frontend/src/components/HistoryTable.jsx:17 | sorting neither loses nor adds entries |
| TopAllocations.SortIsDescending | frontend/src/components/HistoryTable.jsx:17 | the sorted entries are in non-increasing order of value |
| TopAllocations.SortIsStable | frontend/src/components/HistoryTable.jsx:17 | entries of equal value leave the sort in the order they entered it |
| TopAllocations.PositiveKeepsOrder | frontend/src/components/HistoryTable.jsx:16 | for each positive value, the filter keeps the entries carrying it in portfolio order |
| TopAllocations.SortedPositivesKeepPortfolioOrder | frontend/src/components/HistoryTable.jsx:16-17 | positive entries of equal value reach the sorted list in their portfolio order |
| TopAllocations.TopEntriesShape | frontend/src/components/HistoryTable.jsx:15-18 | the cell lists min(3, number of positive weights) entries, all positive, largest first, drawn from the portfolio |
| TopAllocations.TopEntriesAreTheLargest | frontend/src/components/HistoryTable.jsx:17-18 | no positive entry left out exceeds any entry shown |
| TopAllocations.FirstIsLargest | frontend/src/components/HistoryTable.jsx:17-18 | the first entry shown has the largest positive weight |
| TopAllocations.Describe | frontend/src/components/HistoryTable.jsx:14-21 | the cell text is empty exactly when no weight is positive, and otherwise starts with the largest entry's `name (value%)` label |
| TopAllocations.MediumPortfolioExample | frontend/src/components/HistoryTable.jsx:14-18 | weights 25, 0, 40, 15 and 5 show SIP, FD and Gold |
| TopAllocations.TieExample | frontend/src/components/HistoryTable.jsx:17 | two equal weights are shown in portfolio order |
| UserForm.Without | frontend/src/components/UserForm.jsx:30 | the filter keeps exactly the elements different from the instrument |
| UserForm.ToggleInstrument | frontend/src/components/UserForm.jsx:26-38 | only the selection changes; afterwards every instrument except the toggled one is selected exactly when it was before, and the toggled one's membership flips |
| UserForm.ToggleIsSymmetricDifference | frontend/src/components/UserForm.jsx:28-31 | a toggle flips the instrument's membership and no other |
| UserForm.ToggleKeepsOthersInOrder | frontend/src/components/UserForm.jsx:28-31 | the other instruments keep their relative order |
| UserForm.ToggleAppends | frontend/src/components/UserForm.jsx:31 | a newly selected instrument goes to the end |
| UserForm.ToggleTwice | frontend/src/components/UserForm.jsx:28-31 | toggling twice restores the set of selected instruments, and the list itself when the instrument was not selected |
| UserForm.ToggleKeepsNoDuplicates | frontend/src/components/UserForm.jsx:28-31 | a selection without duplicates stays without duplicates |
| UserForm.ChangeRate | frontend/src/components/UserForm.jsx:40-45 | the instrument's rate becomes the parsed number, or 0 when it is not a number; other rates and fields are unchanged |
| UserForm.FirstBadRate | frontend/src/components/UserForm.jsx:62-67 | no instrument is reported exactly when every selected instrument has a positive rate; one reported is selected and has a missing or non-positive rate |
| UserForm.FirstBadRateIsEarliest | frontend/src/components/UserForm.jsx:62-67 | the reported instrument is the earliest one in the selection with a bad rate |
| UserForm.Submit | frontend/src/components/UserForm.jsx:47-79 | missing fields are reported exactly when one of name, age, income and amount is falsy; then an empty selection; then a bad rate, reporting the first selected instrument whose rate is missing or not positive; the form is submitted, unchanged, exactly when all checks pass |
| UserForm.RateChangeAndSubmit | frontend/src/components/UserForm.jsx:40-67 | after a rate change the instrument's rate is acceptable exactly when a positive number was typed; otherwise a selected instrument blocks submission |
| UserForm.ToggleOffLastInstrument | frontend/src/components/UserForm.jsx:26-59 | deselecting the only selected instrument of a filled form leads to the empty-selection alert |

## Left out

- The HTTP request, `raise_for_status` and JSON decoding (backend/utils.py:27-38) are replaced by the `Response` parameter. Any exception they raise is `Raised(message)`.
- Only string values are modelled for `Answer` and a topic's `Text`. A non-string value makes `re.search` raise, which in the source leads to the fallback path.
- The clock is one `now` parameter used for both the freshness check and the cache write. The source reads `time.time()` twice. `datetime.utcnow().isoformat()` is the opaque `stamp` text.
- The `print` in the exception path is left out; it only logs.
- Concurrent lookups are not modelled. The cache is threaded through the calls as a value.
- PriceText.IsDigit: only the ASCII digits 0-9 count as digits. Python's `\d` on `str`, and `float()`, also accept every other Unicode decimal digit (Devanagari, Arabic-Indic and so on). Text whose first number uses such digits yields a live price in the source and the seed price in the model.
- PriceText.Search: finds the first match of `[\d,]+\.?\d*` with `\d` read as ASCII 0-9 only (see PriceText.IsDigit). Python's `re` on `str` matches any Unicode decimal digit, so for text with non-ASCII digits the source can find a match the model does not.
- Python float arithmetic is replaced by exact reals throughout: no rounding after each operation, no infinities or NaN, and no `OverflowError` from `**` (for example `calc_bank_return(1.0, 1e300)` overflows at backend/utils.py:128). Results agree with the source only up to float rounding.
- A `None` rate or price (a `rates` or `current_prices` entry present with value `None`) raises `TypeError` at its first arithmetic step in the source; in the model a rate or price is either absent, and takes its default, or a number.
- PriceText.ParseDecimal: gives the exact decimal value of the token, not the nearest binary float.
- Allocation.Round1: rounds exact reals half to even. Python rounds the nearest binary float, which differs only for shares whose exact value is a tie that is not exactly representable. The template weights never produce such a share.
- Allocation.WeightsSumTo100: proves the general bound of 100 ± 0.25 that five roundings allow. The tighter range that holds for the three fixed templates is not proved.
- Calculators.FdReturn: `years` is a natural number. The source accepts fractional years; the allocation engine only ever uses 1.
- Calculators.BankReturn: `years` is a natural number, as for FdReturn. The source accepts fractional years; the allocation engine only ever uses 1.
- Calculators.SipReturnOf: `months` is a positive natural number. Zero months divides by zero in the source and is excluded by the precondition.
- A zero principal or zero monthly amount makes the calculators raise `ZeroDivisionError`. For the calculators these are preconditions rather than error results. The allocation engine does reach them with a zero amount: with `investable_amount` 0 and FD selected, backend/utils.py:217 calls `calc_fd_return(0.0, rate)`, which raises at :113. `Allocation.RecommendAllocation` models that outcome as `Err(DivisionByZero)` before any calculator is called.
- A `user_data` whose `investable_amount`, `risk_preference` or `selected_instruments` is present but of the wrong type (for example `None`) is left out. Absent fields take their defaults, as in the source.
- PriceFetch.Lower: lower-cases ASCII letters only. Python's `str.lower` also maps other alphabets.
- The cache key also collides for assets or countries containing `_` (for example "a_b" + "c" against "a" + "b_c"). This is not stated as a lemma.
- UserForm.ChangeRate: the text grammar of JavaScript's `parseFloat` is left out. Its result is a parameter.
- UserForm.Submit: JavaScript NaN in a field is not modelled. The converted payload (`parseInt(age)`, `parseFloat(income)`, `parseFloat(investable_amount)`) is not modelled either: `Submitted` carries the form itself.
- TopAllocations.Describe: JavaScript's number-to-text conversion is the parameter `show`. Only the empty case and the leading label are stated, not the whole joined text.
- The JSX rendering, `alert`, `toLocaleDateString` and `handleInputChange` of the two frontend components are left out; they only render or store input.
- backend/app.py, backend/models.py and backend/seed.py are not part of this model. They are routing, ORM schema and database seeding. The seeded historical prices are never read by the core.
- The other frontend files (Dashboard.jsx, Profile.jsx, Onboarding.jsx, App.jsx, constants.js, PredictionCard.jsx, RecommendationChart.jsx) are not part of this model. They are fetch calls, routing and presentation.
