# CSE dashboard rules, modelled and verified in Dafny

This project models the deterministic rules of a Next.js dashboard for companies listed on the Colombo Stock Exchange (CSE). The rules turn backend and mock payloads into what the pages show, and into the decisions the pages take:

- **Symbols and codes:** the trading symbol and how `.N0000` is stripped; the company code's path segment in the health-history URL, and the chart badge that turns it back.
- **Quarterly ratio history:** `M/D/YYYY` parsing, `Q<n> <year>` labels, numeric coercion, the stable sort by date, and the hook state around the fetch.
- **Metrics chart:** the registry of nine metrics, the selected-metric set and its toggle, the per-metric statistics (min, max, average, latest, trend), and the display rules.
- **Risk-analysis page:** the score colour bands, the zone and health-status colours, the feature-impact bars, the z-score change badge, and the symbol-analysis guard.
- **Dividend prediction dashboard:** the headline (`willPay`, the probability threshold), the top-ten factor ranking by magnitude, the four-score scorecard, and the strengths/concerns percentages.
- **Open-price prediction:** the synthetic eight-day forecast, baseline and delta series; the null fallbacks; the constant confidence; the request parameters; and the classification of HTTP statuses and `warming_up` into errors.
- **Sentiment decoder:** the mapping of the news-analysis payload into its response type.
- **Company table and searches:** the CSE company table, the search, the popular-companies list, and the symbol picker's drop-down and handlers.
- **Mock API:** ticker search, news listing, lookup and tags, sign-in, sign-up, "who am I" and profile update.
- **Auth store:** a state machine over a local-storage map.
- **Application shell:** its redirect rule, navigation highlighting, logout and sidebar.

Each source file of the core is one Dafny module, with the same name in Dafny's casing. Shared modules:

- `Wrappers` holds `Option`, `Result`, and `Outcome`, which is a promise that resolved or threw with an optional `Error` message.
- `Strings` models the JavaScript string built-ins the rules use: `toLowerCase`/`toUpperCase`, `includes`, `trim`, `replace` with a one-character pattern, `split`, `startsWith`, template-literal numbers, code-point order and `encodeURIComponent`.
- `Seqs` models `filter`, `slice(0, n)`, `find` and `.filter(Boolean)`.
- `Sorting` models the stable `Array.prototype.sort` of ECMA-262 (10th edition, section 22.1.3.27). It is an insertion sort over a total preorder, and it is proved to permute, to order and to keep every block of equivalent elements in input order.

Pure code is modelled as functions with lemmas. Code that changes state is modelled as classes:

| class | fields |
|---|---|
| auth store | user, token, flags, error, storage map |
| shell | `mounted`, `sidebarOpen` |
| picker | `open` |
| health-history hook | `data`, `loading`, `error` |
| selected-metric set | the set of selected metrics |
| risk page | analysis inputs |

Their methods state the whole new state. The two loops of the source are `method`s with loop invariants, each proved against a specification function:

- `generateMockForecastData` against `MockSeries`;
- the `statistics` fill against `StatsOf`.

The sorting and tag-collecting of the mock news API also become methods, proved against `Selected`, `SortBy` and `TagsOf`.

Numbers are `real`. Dates are `(year, month, day)` triples. `parseFloat`, the news timestamps, `JSON.stringify`/`JSON.parse`, the network and the clock are parameters.

## Model

| member | source | states |
|---|---|---|
| Utils.TrailingDigits | lib/utils.ts:17 | the run of digits that ends the string: all digits, and the character before it (if any) is not a digit |
| Utils.TrailingDigitsAtSuffix | lib/utils.ts:17 | where a `.N` suffix starts, the trailing-digit run is exactly what follows `.N` |
| Utils.NormalizeSymbol | lib/utils.ts:16-18 | the result is a prefix of the symbol; either it is the symbol, or the removed tail is `.N` followed by one or more digits running to the end; whenever such a suffix exists, exactly it is removed |
| Utils.NormalizeExamples | lib/utils.ts:13-14 | `AAF.N0000` and `AAF.N12` give `AAF`; `AAF` stays `AAF` |
| Utils.NormalizeNearMisses | lib/utils.ts:17 | `AAF.N00X`, `AAF.n0000` and `AAF.N` are unchanged: the suffix must reach the end, the `N` is upper-case, and at least one digit is needed |
| Utils.NormalizeNotIdempotent | lib/utils.ts:17 | `A.N1.N2` gives `A.N1`, which normalises again to `A`, so the function is not idempotent |
| FinancialHealthApi.HistorySegment | lib/api/financial-health.api.ts:18 | the segment has the code's length; position i holds `_` where the code has its first `.`, and the lower-cased character elsewhere |
| FinancialHealthApi.FirstIndexOfLower | lib/api/financial-health.api.ts:18 | lower-casing does not move the first `.`, so lower-casing before or after the replacement agree |
| FinancialHealthApi.HistorySegmentFirstDotOnly | lib/api/financial-health.api.ts:18 | `A.B.C` gives `a_b.c`: only the first `.` is replaced |
| FinancialHealthApi.HistorySegmentAt | lib/api/financial-health.api.ts:18 | for a code `a.b` whose prefix `a` holds no `.`, the segment is lower-case `a`, then `_`, then lower-case `b` |
| FinancialHealthApi.HistorySegmentExample | lib/api/financial-health.api.ts:14-18 | `ACL.N0000` gives `acl_n0000` |
| FinancialHealthApi.LowerExample | lib/api/financial-health.api.ts:18 | the pieces of `ACL.N0000` lower-cased and joined by `_` give `acl_n0000` |
| FinancialHealthApi.HistoryUrlPlain | lib/api/financial-health.api.ts:17-19 | for a code of letters, digits, `.` and `_`, the history URL is the base, then `/api/v1/financial-health/company/`, then the segment, then `/all`, with no percent-encoding |
| FinancialHealthApi.HistoryUrl | lib/api/financial-health.api.ts:18-19 | the history URL is the base, then `/api/v1/financial-health/company/`, then the encoded segment, then `/all`; the segment holds no `/` |
| FinancialHealthApi.AnalyzeUrl | lib/api/financial-health.api.ts:52-53 | the analysis URL is the base, then `/api/v1/financial-health/analyze-cse/`, then the encoded symbol, which holds no `/` |
| FinancialHealthApi.ReportUrl | lib/api/financial-health.api.ts:86-87 | the report URL is the base, then `/api/v1/financial-health/report-health-check/`, then the encoded symbol, which holds no `/` |
| FinancialHealthApi.SymbolUrlsPlain | lib/api/financial-health.api.ts:51-87 | the analyze and report URLs end in the symbol exactly as given, with no case change and no replacement |
| FinancialHealthApi.HistorySegmentIsOnePathSegment | lib/api/financial-health.api.ts:18-19 | whatever the code, the encoded segment contains no `/` |
| FinancialHealthApi.Settle | lib/api/financial-health.api.ts:29-36 | success exactly for a 2xx status, carrying the body; a failure carries the body's non-empty `message`, otherwise `<prefix>: <status> <statusText>` |
| FinancialHealthApi.FailureMessage | lib/api/financial-health.api.ts:32-34 | a non-empty body message is the whole message; otherwise the prefix, `: `, the status in decimal, a space and the status text |
| FinancialHealthApi.FallbackNamesTheCall | lib/api/financial-health.api.ts:29-102 | without a body message, each of the three calls' errors starts with that call's own prefix |
| FinancialHealthApi.GetCompanyHealthHistory | lib/api/financial-health.api.ts:17-44 | resolves exactly when the fetch of the history URL succeeds with a 2xx status, with that body; a failed fetch rejects with the network's message; a non-2xx response rejects with the body's message or `Failed to fetch company health history: <status> <statusText>` |
| SentimentApi.ExampleOf | lib/sentimentApi.ts:53-60 | topic, date, 2-day change and FAISS rank are copied under the new names; the direction is positive exactly when `reaction_label` is `"positive"` |
| SentimentApi.ContextOf | lib/sentimentApi.ts:49-63 | the narrative is copied; missing `related_news` gives no examples; otherwise one example per item, in order |
| SentimentApi.Decode | lib/sentimentApi.ts:43-64 | impact and direction pass through; missing `identified_companies` becomes `[]`; the historical context is present exactly when the payload has one, and is then its mapping |
| SentimentApi.DecodeEncode | lib/sentimentApi.ts:43-64 | every response is the decoding of the payload built from it, so decoding loses nothing a response holds |
| SentimentApi.DecodeIdempotent | lib/sentimentApi.ts:43-64 | re-encoding and decoding a decoded response gives it back unchanged |
| SentimentApi.UnknownLabelIsNegative | lib/sentimentApi.ts:56-57 | any label other than `"positive"`, the missing label included, reads as negative |
| SentimentApi.AnalyzeNews | lib/sentimentApi.ts:30-65 | a network failure rethrows its message; a non-OK status throws "Failed to analyze news"; an OK response resolves to the decoded payload |
| HealthHistory.ParseQuarterDate | hooks/use-company-health-history.ts:25-28 | a parsed date is a valid calendar date, taken from a string with at least three `/`-separated fields |
| HealthHistory.ParseFieldOrder | hooks/use-company-health-history.ts:25-28 | fields `m/d/y` of digits name month m, day d and year y (years 0 to 99 are read as 1900 to 1999), exactly when that date is valid |
| HealthHistory.ParseWritten | hooks/use-company-health-history.ts:25-28 | the `M/D/YYYY` text of any valid date with a year of at least 100 parses back to that date |
| HealthHistory.QuarterOf | hooks/use-company-health-history.ts:35 | `ceil(month / 3)` is between 1 and 4, and the month lies in that quarter's three months |
| HealthHistory.QuarterLabel | hooks/use-company-health-history.ts:33-37 | the label is `Q`, the quarter digit and a space, then the year's decimal text, with no leading zero |
| HealthHistory.LabelExamples | hooks/use-company-health-history.ts:33-37 | January 2022 is `Q1 2022`, October 2022 is `Q4 2022`, January 2023 is `Q1 2023`, April 2023 is `Q2 2023` |
| HealthHistory.Year2022 | hooks/use-company-health-history.ts:36 | the year 2022 is written `2022` |
| HealthHistory.Year2023 | hooks/use-company-health-history.ts:36 | the year 2023 is written `2023` |
| HealthHistory.Coerce | hooks/use-company-health-history.ts:47-56 | a ratio string becomes its parsed number, or 0 when it does not parse |
| HealthHistory.ToPoint | hooks/use-company-health-history.ts:44-57 | the point holds the parsed date, its quarter label, and each of the ten ratios coerced from the record's string |
| HealthHistory.Points | hooks/use-company-health-history.ts:44-57 | the map step: one point per record, in record order |
| HealthHistory.ChronoLeIsTotalPreorder | hooks/use-company-health-history.ts:58 | oldest-first date order is a total preorder, as the stable sort needs |
| HealthHistory.TransformToChartData | hooks/use-company-health-history.ts:42-59 | as many points as records; a permutation of the mapped points; sorted oldest first; points with equal dates keep their input order |
| HealthHistory.SortExample | hooks/use-company-health-history.ts:58 | points dated 2023-01, 2023-04, 2022-01 and 2022-10 sort into the order 3rd, 4th, 1st, 2nd |
| HealthHistory.ExamplePoint | hooks/use-company-health-history.ts:44-57 | a record's point carries its parsed date, that date's label and its parsed z-score |
| HealthHistory.TransformExample | hooks/use-company-health-history.ts:42-59 | the four records dated 1/1/2023, 4/1/2023, 1/1/2022 and 10/1/2022 with z-scores 1.5, 1.8, 1.2, 1.0 come out labelled Q1 2022, Q4 2022, Q1 2023, Q2 2023 with z-scores 1.2, 1.0, 1.5, 1.8 |
| HealthHistory.CompanyHealthHistory.constructor | hooks/use-company-health-history.ts:66-68 | no data, not loading, no error |
| HealthHistory.CompanyHealthHistory.ChartData | hooks/use-company-health-history.ts:71-74 | empty without a response; otherwise a permutation of the records' points, sorted oldest first, with points of equal date in record order |
| HealthHistory.CompanyHealthHistory.FetchHistory | hooks/use-company-health-history.ts:76-95 | an empty code sets "Please provide a company code", requests nothing and leaves data and loading alone; otherwise it requests the history URL, stores the result (error cleared) or clears the data and keeps the message, and ends not loading |
| HealthHistory.CompanyHealthHistory.Reset | hooks/use-company-health-history.ts:97-101 | back to no data, not loading, no error |
| MetricsChart.Keys | lib/types/company-health-history.types.ts:65-120 | one key per registry entry, in registry order |
| MetricsChart.RegistryKeys | lib/types/company-health-history.types.ts:65-120 | nine entries with pairwise different keys, covering every ratio except the next-quarter z-score |
| MetricsChart.Toggled | components/metrics-chart.tsx:27-37 | the key is in the new set exactly when it was not in the old one; every other key keeps its membership |
| MetricsChart.ToggleTwice | components/metrics-chart.tsx:27-37 | toggling the same key twice restores the selection |
| MetricsChart.MetricSelection.constructor | components/metrics-chart.tsx:22-24 | only the z-score is selected at first |
| MetricsChart.MetricSelection.ToggleMetric | components/metrics-chart.tsx:27-37 | the selection becomes the toggled set |
| MetricsChart.SelectedMetricConfigs | components/metrics-chart.tsx:40-42 | exactly the registry entries whose key is selected, as an order-preserving subsequence of the registry |
| MetricsChart.Column | components/metrics-chart.tsx:51 | the metric's value from each point, in order |
| MetricsChart.Min | components/metrics-chart.tsx:56 | a lower bound of the values that is one of them |
| MetricsChart.Max | components/metrics-chart.tsx:57 | an upper bound of the values that is one of them |
| MetricsChart.SumAtLeast | components/metrics-chart.tsx:58 | n values, each at least c, sum to at least n·c |
| MetricsChart.SumAtMost | components/metrics-chart.tsx:58 | n values, each at most c, sum to at most n·c |
| MetricsChart.MeanBetween | components/metrics-chart.tsx:58 | the average lies between any lower and any upper bound of the values |
| MetricsChart.StatsOf | components/metrics-chart.tsx:51-61 | min and max bound the column and occur in it; the average is sum over count; min ≤ avg ≤ max and min ≤ latest ≤ max; latest is the last value; the trend is up or down exactly when the last value is above or below the previous one, and stable for one point or equal values |
| MetricsChart.Statistics | components/metrics-chart.tsx:45-65 | no statistics exactly when there is no data or no selected metric; otherwise one entry per selected key, each being `StatsOf` of its column |
| MetricsChart.DisplayCode | components/metrics-chart.tsx:115 | the badge has the code's length; position i holds `.` at the first `_` of the upper-cased code, and the upper-cased character elsewhere |
| MetricsChart.BadgeRoundTrip | components/metrics-chart.tsx:115 | undoing the history path segment (lib/api/financial-health.api.ts line 18): a code with no lower-case letter and no `_` comes back unchanged from the path segment through the badge |
| MetricsChart.BadgeExample | components/metrics-chart.tsx:115 | `ACL.N0000` goes to `acl_n0000` and back |
| MetricsChart.TickIsYear | components/metrics-chart.tsx:173-177 | the x-axis tick of a quarter label is the year's text |
| MetricsChart.TickLabel | components/metrics-chart.tsx:173-177 | a value without a space is its own tick; otherwise the tick is the text between the first space and the next space (or the end); a tick never holds a space |
| MetricsChart.StatCards | components/metrics-chart.tsx:228 | at most six cards: the first selected metrics, all of them when at most six are selected |
| MetricsChart.CardLabelExamples | components/metrics-chart.tsx:244 | "Z-Score" is shown whole; "Retained Earnings / Total Assets" is cut to its first 25 characters and `...` |
| RiskPage.ScoreBand | app/risk/page.tsx:71-77 | green from 90, blue from 70 below 90, amber from 50 below 70, orange from 30 below 50, red below 30; each boundary belongs to the band above it |
| RiskPage.ScoreColor | app/risk/page.tsx:71-77 | `#22c55e` from 90, `#3b82f6` from 70 below 90, `#f59e0b` from 50 below 70, `#f97316` from 30 below 50, `#ef4444` below 30 |
| RiskPage.ScoreBandMonotone | app/risk/page.tsx:71-77 | a higher score never lands in a worse band |
| RiskPage.BandHexInjective | app/risk/page.tsx:71-77 | two bands get the same colour exactly when they are the same band |
| RiskPage.ScoreColorBoundaries | app/risk/page.tsx:71-77 | scores 90, 70, 50 and 30 take the colour of the band above them; 29.99 is red |
| RiskPage.ToneClass | app/risk/page.tsx:25-68 | every coloured badge class follows one pattern around its colour name |
| RiskPage.ToneClassInjective | app/risk/page.tsx:25-68 | different colour names give different classes, and none of them is the muted default |
| RiskPage.ClassesDistinct | app/risk/page.tsx:25-68 | the six badge classes (muted, green, blue, yellow, orange, red) are pairwise different |
| RiskPage.ZoneColor | app/risk/page.tsx:25-36 | any string other than `Safe`, `Grey` and `Distress` gets the muted default |
| RiskPage.ZoneColorInjective | app/risk/page.tsx:25-36 | two zones share a class exactly when they are equal or both unknown |
| RiskPage.HealthStatusColor | app/risk/page.tsx:53-68 | any string other than the five statuses gets the muted default |
| RiskPage.HealthStatusColorInjective | app/risk/page.tsx:53-68 | two statuses share a class exactly when they are equal or both unknown |
| RiskPage.ImpactBarOf | app/risk/page.tsx:182-189 | the name is the display name when it has at most 20 characters, its first 20 characters and `...` otherwise (so at most 23), while the full name and the impact, value, direction and context are copied |
| RiskPage.FeatureImpactChartData | app/risk/page.tsx:181-191 | no bars without impacts; otherwise one bar per impact, in the same order |
| RiskPage.ZScoreChange | app/risk/page.tsx:358-373 | up exactly when next > current (equal values show down); the percent is missing exactly when current is 0, and is otherwise (next − current) / current · 100, as written |
| RiskPage.ChangeSignAgrees | app/risk/page.tsx:358-373 | with a positive current z-score, the percent is positive exactly when the arrow is up |
| RiskPage.ChangeSignDisagreesBelowZero | app/risk/page.tsx:373 | from −2 to −1 the arrow is up but the percent is −50 |
| RiskPage.ZScoreChangeCorrected | app/risk/page.tsx:358-373 | the same arrow (`up` exactly when next > current) and no percentage for a zero current value; for a positive current value the as-written badge; for a negative one the as-written percentage with its sign flipped, i.e. the change measured against \|current\| |
| RiskPage.CorrectedChangeSignAgrees | app/risk/page.tsx:358-373 | in the corrected badge, the percent is positive exactly when the arrow is up |
| RiskPage.RiskAnalysisPage.constructor | app/risk/page.tsx:119-135 | empty input and symbol, no snapshot, no results |
| RiskPage.RiskAnalysisPage.HandleSymbolAnalyze | app/risk/page.tsx:119-135 | a blank input shows "Please enter a stock symbol" and changes nothing; otherwise the trimmed input becomes the symbol, snapshot and results are cleared, and all three fetches get that trimmed, non-empty symbol |
| PredictionDashboard.HeadlineOf | components/dividend/PredictionDashboard.tsx:24-33 | decision defaults to "Unknown", confidence to "Low", probability to 0; `willPay` exactly when the decision contains `YES`; the label is green exactly when the probability is above 0.82 |
| PredictionDashboard.MissingDecisionDoesNotPay | components/dividend/PredictionDashboard.tsx:25-32 | a missing decision shows no dividend |
| PredictionDashboard.ThresholdIsStrict | components/dividend/PredictionDashboard.tsx:33 | a missing probability, and one of exactly 0.82, are not above the threshold |
| PredictionDashboard.FactorOf | components/dividend/PredictionDashboard.tsx:72-76 | the factor is named by the entry's key; its impact is the number, or 0 for a non-number value |
| PredictionDashboard.Factors | components/dividend/PredictionDashboard.tsx:72-76 | one factor per entry, in entry order |
| PredictionDashboard.ByMagnitudeIsTotalPreorder | components/dividend/PredictionDashboard.tsx:77 | the comparator by absolute impact, largest first, is a total preorder |
| PredictionDashboard.FactorsData | components/dividend/PredictionDashboard.tsx:72-78 | missing contributions throw `Object.entries`'s `TypeError`; otherwise the result is the factors stably sorted by magnitude and cut to ten |
| PredictionDashboard.KeptAreDrawn | components/dividend/PredictionDashboard.tsx:77-78 | the kept factors are drawn from the entries without duplication, and all are kept when there are at most ten |
| PredictionDashboard.KeptSorted | components/dividend/PredictionDashboard.tsx:77 | the kept factors come in non-increasing magnitude |
| PredictionDashboard.KeptDominate | components/dividend/PredictionDashboard.tsx:78 | an entry of larger magnitude than a kept factor is itself kept, so the kept factors are ten of the largest |
| PredictionDashboard.KeptStable | components/dividend/PredictionDashboard.tsx:77 | the kept factors of each equal magnitude are a prefix of that magnitude's entries, in entry order |
| PredictionDashboard.BarColor | components/dividend/PredictionDashboard.tsx:176 | green exactly for positive impact; red for zero or negative |
| PredictionDashboard.ScoreBarOf | components/dividend/PredictionDashboard.tsx:36-57 | the shown score is the value or 0; green exactly when the value is present and strictly above the threshold, red otherwise |
| PredictionDashboard.FinancialHealthData | components/dividend/PredictionDashboard.tsx:36-57 | four bars: leverage green only above 60, and liquidity, efficiency and profitability green only above 50; every bar green or red |
| PredictionDashboard.ScorecardBoundaries | components/dividend/PredictionDashboard.tsx:36-57 | scores of exactly 60 and 50 are red |
| PredictionDashboard.Round | components/dividend/PredictionDashboard.tsx:65-66 | `Math.round`: the integer n with n ≤ x + 0.5 < n + 1 |
| PredictionDashboard.RiskRewardData | components/dividend/PredictionDashboard.tsx:60-67 | two slices, strengths then concerns, with their counts; both percentages 0 when there are no items; each in 0..100; otherwise each is its own share of the total rounded to the nearest integer (halves up), within one half of the share, and the two add up to 100 or 101 |
| PredictionDashboard.ShareBounds | components/dividend/PredictionDashboard.tsx:60-66 | a share is between 0 and 100, and 0 when the total is 0 |
| PredictionDashboard.SharesAddUp | components/dividend/PredictionDashboard.tsx:60-66 | with at least one item, the two unrounded shares add up to 100 |
| PredictionDashboard.SharesRoundSum | components/dividend/PredictionDashboard.tsx:60-66 | with at least one item, the two rounded percentages add up to 100 or 101 |
| PredictionDashboard.RoundSum | components/dividend/PredictionDashboard.tsx:65-66 | two reals summing to 100 round to a total of 100 or 101 |
| PredictionDashboard.RoundingOvershoot | components/dividend/PredictionDashboard.tsx:60-67 | one strength and seven concerns show 13% and 88%, 101 in all |
| OpenPricePrediction.MockSeries | lib/api/open-price-prediction.api.ts:55-79 | three series of eight points, for days 0 to 7: baseline at today's open, forecast on the synthetic path, delta = forecast − baseline with its percentage over the open (missing when the open is 0) |
| OpenPricePrediction.MockSeriesStep | lib/api/open-price-prediction.api.ts:55-79 | the first day+1 points of each series are the first day points plus that day's point |
| OpenPricePrediction.GenerateMockForecastData | lib/api/open-price-prediction.api.ts:50-82 | the loop builds exactly `MockSeries` |
| OpenPricePrediction.ForecastEndpoints | lib/api/open-price-prediction.api.ts:61-67 | the forecast is today's open on day 0 and the prediction on day 5 |
| OpenPricePrediction.ForecastStep | lib/api/open-price-prediction.api.ts:61-71 | up to day 5 each day adds a fifth of the predicted move; days 6 and 7 add a tenth of it |
| OpenPricePrediction.ForecastMonotone | lib/api/open-price-prediction.api.ts:61-71 | the path moves in the direction of the prediction every day and never turns back |
| OpenPricePrediction.ForecastBetween | lib/api/open-price-prediction.api.ts:61-67 | up to day 5 the forecast stays between today's open and the prediction |
| OpenPricePrediction.DeltaSign | lib/api/open-price-prediction.api.ts:76-78 | from day 1 on, the delta has the sign of the predicted move, in price and (over a positive open) in percent |
| OpenPricePrediction.ForecastExample | lib/api/open-price-prediction.api.ts:61-78 | open 100 and prediction 110 give a forecast of 102 on day 1, and a delta of 10 (10%) on day 5 |
| OpenPricePrediction.CalculateConfidence | lib/api/open-price-prediction.api.ts:88-93 | every prediction is rated medium |
| OpenPricePrediction.PredictionOf | lib/api/open-price-prediction.api.ts:98-125 | symbol from `company_id`; a missing open becomes 0; a missing prediction becomes the open; a missing date becomes today; medium confidence; the series are `MockSeries` of the open and the prediction |
| OpenPricePrediction.TransformBackendResponse | lib/api/open-price-prediction.api.ts:98-125 | the result is `PredictionOf` the response |
| OpenPricePrediction.MissingPredictionMeansNoMove | lib/api/open-price-prediction.api.ts:102-103 | without a prediction every delta is 0 |
| OpenPricePrediction.RequestFor | lib/api/open-price-prediction.api.ts:135-144 | the company parameter is the URI-encoded normalised id; `asof` is sent exactly when a non-empty date is given |
| OpenPricePrediction.RequestStripsSuffix | lib/api/open-price-prediction.api.ts:135-144 | a main-board symbol of unreserved characters is sent as its bare code |
| OpenPricePrediction.Classify | lib/api/open-price-prediction.api.ts:154-176 | success exactly for an OK status without `warming_up`; 404 gives "Company <id> not found in dataset"; 503 gives the warming-up message; other failures give the body's non-empty message, else `Prediction failed: <status> <statusText>`; OK with `warming_up` gives the reason or "Service is warming up" |
| OpenPricePrediction.ClassifyMessagesNonEmpty | lib/api/open-price-prediction.api.ts:154-176 | every failure carries a non-empty message |
| OpenPricePrediction.PredictOpenPrice | lib/api/open-price-prediction.api.ts:130-186 | requests `RequestFor`; a network failure rethrows its message; a response resolves to `PredictionOf` the classified body, or throws the classification's message |
| CseCompanyData.MainBoardNormalizes | lib/utils.ts:17 | a symbol ending in `.N0000` normalises to the text before the suffix |
| CseCompanyData.CompanyNormalizes | data/cse-companies.ts:13-336 | each row's symbol is on the main board and normalises to the row's trading code |
| CseCompanyData.CompaniesOf | data/cse-companies.ts:11-336 | one company per row, in order, named as the row, with the row's code and `.N0000` as its symbol |
| CseCompanyData.SearchIn | data/cse-companies.ts:344-355 | a blank query gives nothing; otherwise a company is returned exactly when it matches the untrimmed lower-cased query; the result is an order-preserving subsequence of the table |
| CseCompanyData.SearchCompanies | data/cse-companies.ts:344-356 | over the listed companies: nothing for a blank query; otherwise exactly the companies that match, as an order-preserving subsequence of the listing |
| CseCompanyData.SearchIgnoresCase | data/cse-companies.ts:349-354 | searching the lower-cased query gives the same result as the query itself |
| CseCompanyData.LowerKeepsSpaces | data/cse-companies.ts:349 | lower-casing neither adds nor removes spaces |
| CseCompanyData.NoSpaceNoMatch | data/cse-companies.ts:351-354 | a text without spaces contains no query that has one |
| CseCompanyData.UntrimmedQuery | data/cse-companies.ts:349 | a query holding a space matches no company whose name and symbol have no space: the query is not trimmed |
| CseCompanyData.TrimmedQueryExample | data/cse-companies.ts:349-354 | "wind" finds WindForce through its symbol |
| CseCompanyData.UntrimmedQueryExample | data/cse-companies.ts:349 | "WIND " misses WindForce |
| CseCompanyData.Lookups | data/cse-companies.ts:362-369 | one `find` per popular symbol, in the order of the symbols |
| CseCompanyData.PopularIn | data/cse-companies.ts:360-371 | at most eight companies, each in the table with a popular symbol; when every popular symbol is listed, all eight come back, in the given order |
| CseCompanyData.GetPopularCompanies | data/cse-companies.ts:361-372 | at most eight companies, each a listed company with a popular symbol |
| CseCompanyData.PresentFrom | data/cse-companies.ts:362-370 | what `.filter(Boolean)` keeps of the lookups comes from the table and has a popular symbol |
| CseCompanyData.FoundWhenListed | data/cse-companies.ts:362-370 | a listed popular symbol is found, so nothing is dropped |
| CseCompanyData.PopularIsFirst | data/cse-companies.ts:362-369 | each returned company is the first table entry with its symbol |
| CseCompanyData.PopularRowsHaveTheSymbols | data/cse-companies.ts:362-369 | the eight popular rows carry the eight popular symbols, in order |
| CseCompanyData.PopularFromRows | data/cse-companies.ts:360-371 | a table holding the eight popular rows yields the eight popular companies in order |
| CseCompanyData.JkhRow | data/cse-companies.ts:11-336 | the JKH row is in the table |
| CseCompanyData.DialRow | data/cse-companies.ts:11-336 | the DIAL row is in the table |
| CseCompanyData.CombRow | data/cse-companies.ts:11-336 | the COMB row is in the table |
| CseCompanyData.HnbRow | data/cse-companies.ts:11-336 | the HNB row is in the table |
| CseCompanyData.SampRow | data/cse-companies.ts:11-336 | the SAMP row is in the table |
| CseCompanyData.AlumRow | data/cse-companies.ts:11-336 | the ALUM row is in the table |
| CseCompanyData.SltlRow | data/cse-companies.ts:11-336 | the SLTL row is in the table |
| CseCompanyData.HaylRow | data/cse-companies.ts:11-336 | the HAYL row is in the table |
| CseCompanyData.FirstPopularRowsListed | data/cse-companies.ts:11-336 | the JKH, DIAL, COMB and HNB rows are in the table |
| CseCompanyData.LastPopularRowsListed | data/cse-companies.ts:11-336 | the SAMP, ALUM, SLTL and HAYL rows are in the table |
| CseCompanyData.PopularCompaniesAllListed | data/cse-companies.ts:360-371 | `getPopularCompanies()` returns eight companies: JKH, DIAL, COMB, HNB, SAMP, ALUM, SLTL, HAYL, in that order |
| CompanySymbolSearch.FilteredIn | components/company-symbol-search.tsx:30-40 | a blank value shows the popular companies; otherwise the first ten search results for the untrimmed value, each in the table and matching; never more than ten; all matches when there are at most ten |
| CompanySymbolSearch.FilteredCompanies | components/company-symbol-search.tsx:29-40 | over the listed companies: the popular companies for a blank value; otherwise the first ten search results, each listed and matching; never more than ten |
| CompanySymbolSearch.Picker.constructor | components/company-symbol-search.tsx:26 | the list starts closed |
| CompanySymbolSearch.Picker.HandleSelect | components/company-symbol-search.tsx:42-46 | calls `onChange` then `onSelect` with the symbol, and closes the list |
| CompanySymbolSearch.Picker.HandleKeyDown | components/company-symbol-search.tsx:48-56 | Enter with `onEnter` prevents the default, closes and calls `onEnter`; Escape closes; any other key changes nothing |
| CompanySymbolSearch.Picker.HandleInputChange | components/company-symbol-search.tsx:58-64 | passes the new text to `onChange` and leaves the list open |
| CompanySymbolSearch.Picker.HandleFocus | components/company-symbol-search.tsx:66-68 | focus opens the list |
| FakeApi.SearchTickers | lib/fakeApi.ts:93-100 | exactly the companies whose lower-cased symbol or name contains the lower-cased query, in their order |
| FakeApi.EmptyQueryReturnsAll | lib/fakeApi.ts:93-100 | the empty query returns every company, in order |
| FakeApi.SearchTickersIgnoresCase | lib/fakeApi.ts:93-100 | lower-casing the query does not change the result |
| FakeApi.Selected | lib/fakeApi.ts:242-254 | exactly the articles that match a non-empty query in title, summary or content and carry a non-empty tag exactly; drawn from the list without duplication and in list order |
| FakeApi.DateOrder | lib/fakeApi.ts:256-268 | the comparator is a total preorder that ties exactly the articles with equal publication times; for "oldest" an earlier article never comes after a later one, for anything else a later one never comes after an earlier one |
| FakeApi.NewsList | lib/fakeApi.ts:234-271 | the filtered articles, a permutation of `Selected`, sorted by the requested date order, with equal dates kept in list order; the input is not reordered |
| FakeApi.NewsGetById | lib/fakeApi.ts:273-277 | nothing exactly when no article has the id; otherwise the first article with it |
| FakeApi.TagsOf | lib/fakeApi.ts:279-286 | a tag is collected exactly when some article carries it |
| FakeApi.LexLeIsTotalPreorder | lib/fakeApi.ts:285 | code-point order of strings is a total preorder |
| FakeApi.AddTags | lib/fakeApi.ts:282-284 | adding an article's tags keeps the tags seen distinct and makes them the union |
| FakeApi.NewsGetAllTags | lib/fakeApi.ts:279-286 | every tag of every article exactly once, in code-point order |
| FakeApi.AuthSignIn | lib/fakeApi.ts:139-162 | an unknown email gives "Email not found"; otherwise success exactly when the first user with the email has this password (the returned user has no password field), else "Invalid password" |
| FakeApi.Token | lib/fakeApi.ts:160 | the token is `token_`, the user id, `_`, then decimal digits that read back as the current time |
| FakeApi.SignInPassword | lib/fakeApi.ts:144-150 | for a known email, the first matching user's password decides between success and "Invalid password" |
| FakeApi.AuthSignUp | lib/fakeApi.ts:164-197 | an existing email gives "Email already exists"; otherwise a new user `user_<time>` with display name = name, empty bio and today's date, and a token for that id |
| FakeApi.SignUpDoesNotPersist | lib/fakeApi.ts:164-197 | the mock list is not extended: an email that can sign up still cannot sign in |
| FakeApi.AuthGetMe | lib/fakeApi.ts:199-214 | an empty token fails with "No token provided"; any other token gets the first mock user (a `TypeError` with no users) |
| FakeApi.AuthUpdateProfile | lib/fakeApi.ts:216-231 | the first mock user with only display name and bio replaced; fails exactly when there is no user |
| FakeApi.UpdateProfileMatchesGetMe | lib/fakeApi.ts:199-231 | with a token, the update succeeds exactly when "who am I" does, and differs from it only in display name and bio |
| AuthStore.StorageKeysDiffer | stores/useAuthStore.ts:26-27 | the token key and the user key are different |
| AuthStore.GetItem | stores/useAuthStore.ts:94-95 | present exactly when the key is stored, with the stored value |
| AuthStore.Store.constructor | stores/useAuthStore.ts:29-34 | no user, no token, not authenticated, loading, no error, over the existing storage |
| AuthStore.Store.SignIn | stores/useAuthStore.ts:36-56 | on success both keys are written and the store holds the response's user and token, authenticated, without error; on failure the error is the message or "Sign in failed", the session and storage are unchanged, and the rejection is passed on; not loading afterwards |
| AuthStore.Store.SignUp | stores/useAuthStore.ts:58-78 | as sign-in, with the sign-up call and "Sign up failed" |
| AuthStore.Store.Settle | stores/useAuthStore.ts:37-77 | the shared success and failure handling of sign-in and sign-up, keeping the store consistent |
| AuthStore.Store.SignOut | stores/useAuthStore.ts:80-90 | both keys are removed; user, token, authentication, loading and error are reset |
| AuthStore.Store.LoadSession | stores/useAuthStore.ts:92-110 | authenticated with the stored token and user exactly when both keys hold non-empty strings and the user parses; otherwise only loading goes off; storage and error untouched |
| AuthStore.Store.UpdateProfile | stores/useAuthStore.ts:112-131 | without a non-empty stored token it fails with "Not authenticated" and keeps the user; a resolved call stores and holds the updated user; a failure sets the message or "Profile update failed"; token and authentication never change |
| AuthStore.Store.ClearError | stores/useAuthStore.ts:133 | only the error changes |
| AuthStore.SignInThenReload | stores/useAuthStore.ts:36-110 | after a sign-in, a fresh store over the same storage loads the same user and token |
| AppShell.PageKindsComplement | components/app-shell.tsx:36-37 | every path is exactly one of sign-in page and protected page |
| AppShell.Redirect | components/app-shell.tsx:33-44 | no redirect before mount or while loading; then a signed-out user goes to `/auth/sign-in` exactly from protected pages, and a signed-in user goes to `/` exactly from sign-in pages |
| AppShell.RedirectTargetAllowed | components/app-shell.tsx:36-43 | the target is a page the user may stay on |
| AppShell.RedirectFixpoint | components/app-shell.tsx:36-43 | applying the rule at the target, with the same session, redirects no further |
| AppShell.NavHrefsDistinct | components/app-shell.tsx:12-19 | the six navigation entries have pairwise different `href`s |
| AppShell.AtMostOneActive | components/app-shell.tsx:79 | at most one entry is highlighted on any path |
| AppShell.NoActiveOnAuthPage | components/app-shell.tsx:12-79 | no entry is highlighted on a sign-in page |
| AppShell.Shell.constructor | components/app-shell.tsx:25-26 | not mounted, sidebar closed |
| AppShell.Shell.SidebarPagesStay | components/app-shell.tsx:52-58 | a protected page shown in the sidebar layout is never redirected |
| AppShell.Shell.Mount | components/app-shell.tsx:28-31 | the shell is mounted and the session loaded: user, token and the authenticated flag come from storage when both keys are set and the user parses, and are unchanged otherwise; the redirect rule is then in force for every path |
| AppShell.Shell.HandleLogout | components/app-shell.tsx:46-49 | signs out and navigates to `/auth/sign-in`, where no redirect applies; the sidebar layout is gone, and once mounted every protected page redirects to the sign-in page |
| AppShell.Shell.ToggleSidebar | components/app-shell.tsx:63-64 | the menu button flips the mobile sidebar |
| AppShell.Shell.CloseSidebar | components/app-shell.tsx:64-85 | the overlay and each navigation entry close the sidebar |
| Strings.Contains | data/cse-companies.ts:352-353 | `includes` holds exactly when the query occurs at some index |
| Strings.TrimEmptyIffBlank | data/cse-companies.ts:345 | the trimmed string is empty exactly when the string is all whitespace |
| Strings.NatToString | hooks/use-company-health-history.ts:36 | the decimal text of n is non-empty digits that read back as n, with a leading `0` only for 0 itself |
| Strings.Truncate | components/metrics-chart.tsx:244 | at most n characters are kept whole; a longer string becomes its first n characters and `...` |
| MetricsChart.CardLabel | components/metrics-chart.tsx:244 | a label of at most 25 characters is shown whole; a longer one as its first 25 characters and `...` |
| Strings.EncodeUriComponent | lib/api/financial-health.api.ts:18 | the encoding holds only unreserved characters and `%` |
| Strings.EncodeUnreservedIdentity | lib/api/financial-health.api.ts:18 | on unreserved characters the encoding is the identity |
| Sorting.SortByPermutation | hooks/use-company-health-history.ts:58 | the sort neither drops nor invents elements |
| Sorting.SortBySorted | hooks/use-company-health-history.ts:58 | under a total preorder, the result is ordered |
| Sorting.SortByStable | hooks/use-company-health-history.ts:58 | elements level with each other come out in input order |
| Seqs.FilterIsSubsequence | data/cse-companies.ts:351-354 | `filter` keeps the surviving elements in their original order |
| Seqs.Find | data/cse-companies.ts:362-369 | `find` gives nothing exactly when no element satisfies the test; otherwise the first that does |

## Left out

- Rendering: JSX, recharts, icons, toasts and Tailwind class strings, beyond their role as labels that tell the cases apart. `cn`/`twMerge` (lib/utils.ts:4-6) is not modelled. `getZoneIcon` is left out as presentation only.
- Network: `fetch` is a parameter, `string -> Result<response>`. Only the logic after the response is modelled. Bodies arrive already decoded, so the case where `response.json()` rejects on an OK response with a malformed body, and that `SyntaxError` is rethrown as it is, is not represented. The prediction request is modelled as its parameter values: the `URLSearchParams` serialisation, which percent-encodes the already-encoded company id a second time, is not modelled.
- The analyze and report-health-check wrappers are modelled through their URLs and the shared `Settle`. Their surrounding hooks, hooks/use-financial-health.ts and hooks/use-report-health-check.ts, are not part of this model.
- A rejection that is not an `Error` is left out of `GetCompanyHealthHistory` and `PredictOpenPrice`. In the source that path rethrows "An unexpected error occurred …"; the modelled network only fails with a message.
- Timing: the `delay` promises of the mock API are not modelled. Neither is the `setTimeout` close in the picker's blur handler, which is why `handleBlur` is not modelled.
- Async: each awaited action is one method from the call to its settled end. The intermediate `loading = true` state is set inside the methods but is not observable between them.
- Clock and randomness: `Date.now()` and today's date are parameters (`now`, `idTime`, `tokenTime`, `today`). `Math.random` is outside the core.
- `parseFloat` and the article timestamps are abstract parameters. So are `JSON.stringify` and `JSON.parse`, with `None` when parsing throws.
- Exceptions thrown by `localStorage` are not modelled. `JSON.parse` of the stored user either gives a user or throws; stored text that parses to something other than a user object is not modelled.
- The JSON files under data/mock/ are not part of this model. They are parameters of the mock API functions.
- Dates: invalid dates, dates that overflow or normalise in JavaScript, and the NaN comparator results they cause are out of scope. `HealthHistory.TransformToChartData` and `HealthHistory.CompanyHealthHistory.ChartData` require every record's date to parse. `HealthHistory.ParseQuarterDate` returns `None` for text it does not model.
- Case mapping covers ASCII letters only. String order is code-point order. `sort()` compares UTF-16 code units, and the two orders agree on characters below U+10000, which covers all the data. `encodeURIComponent` is modelled over the UTF-8 bytes of whole characters, so lone surrogates are not covered. Lengths and `substring` cuts (`Strings.Truncate`, `RiskPage.ImpactBarOf`, `MetricsChart.CardLabel`) count characters, while JavaScript counts UTF-16 code units, so a text with a character above U+FFFF is cut at a different place.
- Floating point: `toFixed`, `toLocaleDateString`, and NaN or Infinity from a division by a zero baseline are not modelled. Numbers are exact reals, and such a percentage is `None`.
- The risk page's `handleSearch` and `handleAnalyze` are not modelled. Only the `handleSymbolAnalyze` guard is.
- The field `label` of the chart points and of the metric registry is spelled `date` and `caption`, because `label` is reserved in Dafny.
- The company table is transcribed as name and trading-code rows. Each symbol is formed by appending `.N0000`, which every symbol of the table carries.
- The worked health-history example (`HealthHistory.TransformExample`) is stated over the parsed dates. That the texts `1/1/2023` and the others parse to those dates follows from `HealthHistory.ParseWritten`.
- The dividend scorecard compares strictly (`> 60`, `> 50`), as the code does, so exactly 60 or 50 is red.

## Findings

| source | as written | input that shows it | evidently intended | confidence | as-written member | corrected member |
|---|---|---|---|---|---|---|
| app/risk/page.tsx:373 | the change percentage divides by the signed current z-score | current −2, next −1: the arrow is up (green) but the badge reads −50% | divide by the magnitude of the current z-score, so the sign follows the arrow | not executed | RiskPage.ChangeSignDisagreesBelowZero | RiskPage.CorrectedChangeSignAgrees |
