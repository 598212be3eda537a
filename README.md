# Demo analytics scripts, modelled in Dafny

This project models the deterministic logic inside five demo data scripts and proves properties about it. The randomness, the charts and the I/O around that logic are left out:

- **Mosquito oviposition forecasting** (`pasteur_modeling.py`):
  - the synthetic climate series, with its clipped rainfall and circular `np.roll` rainfall lags;
  - the feature pipeline: `shift` lags, trailing rolling means, calendar columns, then `dropna`;
  - the chronological 80/20 train/test split and the choice of predictor columns.
- **Rule-based bank customer scoring** (`isbank_simple_analysis.py`): four if/elif score buckets, the total score, the segment/level tier, the CLV formula, the zero-padded customer id, the 1000-customer driver loop and the right-closed age binning.
- **Production-log generator** (`generate_data.py`):
  - the four nested loops over day, station, team and shift;
  - a running `item_id` counter;
  - blocks of at least 20 items each;
  - production and image-QC rows built in lock-step.
- **Image-defect threshold analysis** (`visualize_image_defects.py`): the confusion counts for `value >= thr`, guarded precision and recall, and the result list over the blur and noise thresholds.
- **Scrape/KPI pipeline** (`asseco_webscraping_pipeline.py`):
  - the paged scraper and its URL scheme, rating-label fallback and early exit on the first exception;
  - the synthetic catalogue;
  - `run_scrape`'s choice of source and its timestamped concatenation;
  - `compute_kpis`, which adds an `in_stock` column to the frame and builds a per-site KPI table.

Modules, one per file:

- `Wrappers`: `Option`.
- `Text`: decimal rendering, zero padding, ASCII case mapping, substring search and lexicographic order. These model Python's f-string `:0Nd` formats, `str.capitalize`, case-insensitive `str.contains` and the sorting of `groupby` keys.
- `PasteurModeling`, `IsbankScoring`, `GenerateData`, `ImageDefects` and `WebscrapingPipeline`: one per script.

Modelling choices:

- **Random draws** become parameters: a function from index to drawn value, or a sequence of draws. Examples are the Poisson station base, the per-block uniform factor, per-item defect and image draws, the climate noise and the synthetic prices and stock states. Nothing about distributions is modelled.
- **The network** becomes a function `fetch` from URL to `Response`. A response is either a failure (connection error or `raise_for_status`) or the page's list of articles. An article that raises inside the loop body is one whose anchor, price or availability element is missing, or whose price text does not parse as a float once the `£` sign is removed.
- **Dates** are day indices from the start date.
- **The sorting of `groupby` keys** is modelled as ascending order under `Text.LexLess`, which compares code points.
- **The pandas frame that `compute_kpis` mutates** is the class `ScrapeTable`. `ComputeKpis` assigns its `in_stock` column.
- **`engineer_features`'s column-by-column additions** are methods that follow the source's `for l` / `for w` loops.
- **The generator's and the driver's appends** are loops over `seq` values.

Two points follow the code exactly:

- The split in `train_evaluate` performs no size check. With at least one feature row the test part is never empty, but with fewer than two the train part is, and the model fit that follows (left out here) then raises.
- `dropna` keeps `max(0, N - 21)` rows, since the lag of 21 is the longest history any column needs.

`engineer_features` works on a copy of its input. Frames are values here, so the caller's frame is unchanged by construction.

## Model

| member | source | states |
|---|---|---|
| PasteurModeling.Clip0 | institut_pasteur_project/pasteur_modeling.py:25-33 | `np.clip(x, 0, None)` is never negative and keeps non-negative values |
| PasteurModeling.RollAt | institut_pasteur_project/pasteur_modeling.py:30-31 | `np.roll(a, k)[t]` is `a[(t - k) mod n]` |
| PasteurModeling.RollWrapsAround | institut_pasteur_project/pasteur_modeling.py:30-31 | the first k days of a roll read from the end of the series, and the later days read from k days before |
| PasteurModeling.ClippedRainfall | institut_pasteur_project/pasteur_modeling.py:25 | one rainfall value per day, each non-negative |
| PasteurModeling.EggsIndex | institut_pasteur_project/pasteur_modeling.py:29-33 | the egg index is clipped at zero |
| PasteurModeling.SynthesizeData | institut_pasteur_project/pasteur_modeling.py:18-42 | exactly `days` rows, row t dated day t, rainfall and eggs non-negative, temperature and humidity the drawn values |
| PasteurModeling.EggsReadCircularLags | institut_pasteur_project/pasteur_modeling.py:29-33 | the eggs of day t use the rainfall of rows (t-7) mod days and (t-14) mod days, with weights 0.9 and 0.6 |
| PasteurModeling.SortByDate | institut_pasteur_project/pasteur_modeling.py:47 | `sort_values('date')` yields a permutation of the rows sorted by date |
| PasteurModeling.InsertSorted | institut_pasteur_project/pasteur_modeling.py:47 | inserting a row into a date-sorted frame keeps it sorted |
| PasteurModeling.SortSorted | institut_pasteur_project/pasteur_modeling.py:47 | sorting a frame already in date order changes nothing |
| PasteurModeling.SynthesizedIsSorted | institut_pasteur_project/pasteur_modeling.py:47 | the synthesized series is already in date order, so the sort is the identity on it |
| PasteurModeling.ShiftAt | institut_pasteur_project/pasteur_modeling.py:50-52 | `shift(l)` at row i is undefined for i < l and is the source value of row i - l otherwise |
| PasteurModeling.ShiftNoLookAhead | institut_pasteur_project/pasteur_modeling.py:50-52 | a lag at row i depends only on source rows 0..i |
| PasteurModeling.RollingMean | institut_pasteur_project/pasteur_modeling.py:55-57 | `rolling(w).mean()` has one cell per row, undefined exactly for i < w - 1 |
| PasteurModeling.RollingMeanNoLookAhead | institut_pasteur_project/pasteur_modeling.py:55-57 | a rolling mean at row i depends only on source rows 0..i |
| PasteurModeling.RollingMeanBounds | institut_pasteur_project/pasteur_modeling.py:55-57 | the mean of window i-w+1..i lies between the window's bounds |
| PasteurModeling.LagTriplePresent | institut_pasteur_project/pasteur_modeling.py:49-52 | the three lag-l columns are all defined at row i exactly when l <= i |
| PasteurModeling.RollTriplePresent | institut_pasteur_project/pasteur_modeling.py:54-57 | the three window-w columns are all defined at row i exactly when w <= i + 1 |
| PasteurModeling.LagColumnsPresent | institut_pasteur_project/pasteur_modeling.py:49-52 | every lag column is defined at row i exactly when each lag is at most i |
| PasteurModeling.RollColumnsPresent | institut_pasteur_project/pasteur_modeling.py:54-57 | every rolling column is defined at row i exactly when each window is at most i + 1 |
| PasteurModeling.Features | institut_pasteur_project/pasteur_modeling.py:46-61 | the feature frame has one row per input row and columns of equal length |
| PasteurModeling.FeaturesRowPresent | institut_pasteur_project/pasteur_modeling.py:49-63 | a feature row has no missing cell exactly when its index is at least 21 |
| PasteurModeling.DropNa | institut_pasteur_project/pasteur_modeling.py:63 | `dropna` keeps the column names, every row it keeps is fully defined, and its rows are those of the complete-row indices |
| PasteurModeling.PresentRows | institut_pasteur_project/pasteur_modeling.py:63 | the complete-row indices among the first n: each is complete, every complete row is among them, and they strictly increase |
| PasteurModeling.DropNaKeepsCompleteRowsInOrder | institut_pasteur_project/pasteur_modeling.py:63 | `dropna` keeps exactly the complete rows, in their original order, with their dates and cells |
| PasteurModeling.KeepRows | institut_pasteur_project/pasteur_modeling.py:63 | selecting rows by index keeps every column's name and picks its values at those indices |
| PasteurModeling.PresentRowsFrom | institut_pasteur_project/pasteur_modeling.py:63 | when rows are defined exactly from index m on, `dropna` keeps rows m..n-1 in order |
| PasteurModeling.DropNaOfFeatures | institut_pasteur_project/pasteur_modeling.py:63 | `dropna` on the feature frame is the slice from row min(21, N) to the end |
| PasteurModeling.AddLags | institut_pasteur_project/pasteur_modeling.py:49-52 | the lag loop appends the rainfall/temperature/humidity lag columns for 7, 14 and 21, in that order |
| PasteurModeling.AddRollingMeans | institut_pasteur_project/pasteur_modeling.py:54-57 | the rolling loop appends the three rolling-mean columns for windows 7 and 14, in that order |
| PasteurModeling.AddCalendar | institut_pasteur_project/pasteur_modeling.py:59-61 | the month, doy_sin and doy_cos columns are appended to the frame, one value per row |
| PasteurModeling.AddColumnNames | institut_pasteur_project/pasteur_modeling.py:50 | assigning a new column appends its name at the end of the column list |
| PasteurModeling.EngineerFeatures | institut_pasteur_project/pasteur_modeling.py:45-64 | the output is `dropna` of the features of the date-sorted input: rows 21..N-1, max(0, N-21) of them, dates ascending, and strictly ascending when the input dates are distinct |
| PasteurModeling.SlicedDatesAscend | institut_pasteur_project/pasteur_modeling.py:47-63 | the dates kept by `dropna` stay in ascending order |
| PasteurModeling.DistinctDatesOnce | institut_pasteur_project/pasteur_modeling.py:47 | with distinct dates, no row occurs twice in the frame |
| PasteurModeling.SameDateSameRow | institut_pasteur_project/pasteur_modeling.py:47 | with distinct dates, two rows of the frame with the same date are the same row |
| PasteurModeling.SortKeepsDistinctDates | institut_pasteur_project/pasteur_modeling.py:47 | sorting rows with distinct dates leaves the dates strictly ascending |
| PasteurModeling.SlicedDatesStrict | institut_pasteur_project/pasteur_modeling.py:47-63 | on strictly date-ordered rows, the dates kept by `dropna` strictly ascend |
| PasteurModeling.EngineeredDatesStrict | institut_pasteur_project/pasteur_modeling.py:45-64 | input rows with distinct dates give a feature table with strictly ascending dates |
| PasteurModeling.SplitIndex | institut_pasteur_project/pasteur_modeling.py:70 | `int(n * 0.8)` is the floor of 0.8·n, below n for n > 0, and 0 exactly when n < 2 |
| PasteurModeling.SplitIsPartition | institut_pasteur_project/pasteur_modeling.py:69-71 | train has floor(0.8·n) rows, and train followed by test is the input, column by column |
| PasteurModeling.TrainPrecedesTest | institut_pasteur_project/pasteur_modeling.py:71 | on date-ordered features, every train date is no later than every test date |
| PasteurModeling.TrainStrictlyPrecedesTest | institut_pasteur_project/pasteur_modeling.py:69-71 | on strictly date-ordered features, every train date is before every test date |
| PasteurModeling.SynthesizedTrainPrecedesTest | institut_pasteur_project/pasteur_modeling.py:18-71 | on the synthetic series, every train day of the feature table comes before every test day |
| PasteurModeling.FeatureColumns | institut_pasteur_project/pasteur_modeling.py:74 | a name is a predictor exactly when it is a column other than `date` and `eggs` |
| PasteurModeling.FeatureColumnsConcat | institut_pasteur_project/pasteur_modeling.py:74 | the predictor filter keeps the column order |
| PasteurModeling.FeatureNamesShape | institut_pasteur_project/pasteur_modeling.py:35-61 | the feature frame's columns are date, the four measures, then the derived columns |
| PasteurModeling.PredictorsOfFeatures | institut_pasteur_project/pasteur_modeling.py:73-74 | the predictors are temperature, humidity, rainfall and every derived column in order, and `eggs` is not among them |
| PasteurModeling.DefaultSizes | institut_pasteur_project/pasteur_modeling.py:63-71 | 900 days give 879 feature rows, split 703/176 |
| IsbankScoring.IncomeScore | isbank_analysis/isbank_simple_analysis.py:29-38 | the income score is one of 5, 10, 15, 20, 25 |
| IsbankScoring.BalanceScore | isbank_analysis/isbank_simple_analysis.py:41-50 | the balance score is one of 5, 10, 15, 20, 25 |
| IsbankScoring.EducationScore | isbank_analysis/isbank_simple_analysis.py:53-60 | the education score is a component score and never 5 |
| IsbankScoring.ActivityScore | isbank_analysis/isbank_simple_analysis.py:63-72 | the activity score is one of 5, 10, 15, 20, 25 |
| IsbankScoring.IncomeScoreMonotone | isbank_analysis/isbank_simple_analysis.py:29-38 | a higher income never scores lower |
| IsbankScoring.BalanceScoreMonotone | isbank_analysis/isbank_simple_analysis.py:41-50 | a higher balance never scores lower |
| IsbankScoring.ActivityScoreMonotone | isbank_analysis/isbank_simple_analysis.py:63-72 | more transactions never score lower |
| IsbankScoring.ThresholdsAreStrict | isbank_analysis/isbank_simple_analysis.py:29-72 | every threshold value itself falls into the lower bucket, e.g. income 100000 scores 20 |
| IsbankScoring.TotalScore | isbank_analysis/isbank_simple_analysis.py:75 | the total is the sum of the four scores, a multiple of 5 in [25, 100] |
| IsbankScoring.TierRank | isbank_analysis/isbank_simple_analysis.py:78-92 | a total of at least 80 gets the top tier, and a total below 50 the last |
| IsbankScoring.TierOf | isbank_analysis/isbank_simple_analysis.py:78-92 | the segment/level pair is one of the five listed tiers |
| IsbankScoring.TierOfRank | isbank_analysis/isbank_simple_analysis.py:78-92 | a higher total never gets a worse tier |
| IsbankScoring.LevelDeterminesSegment | isbank_analysis/isbank_simple_analysis.py:78-92 | two customers share a level exactly when they share a segment |
| IsbankScoring.ScoreMultiplier | isbank_analysis/isbank_simple_analysis.py:97 | for a total in [25, 100] the multiplier lies in [1.125, 1.5] |
| IsbankScoring.Clv | isbank_analysis/isbank_simple_analysis.py:96-98 | the CLV is at least the base sum and at most 1.5 times it |
| IsbankScoring.ClvHigherThanCommentReading | isbank_analysis/isbank_simple_analysis.py:95-98 | the code scales the whole base sum, so it exceeds the comment's reading, which scales only the investment term |
| IsbankScoring.CustomerId | isbank_analysis/isbank_simple_analysis.py:101 | the id starts with `C` and has 5 characters below customer 9999 |
| IsbankScoring.CustomerIdInjective | isbank_analysis/isbank_simple_analysis.py:101 | the digits of the id read back as i + 1, so ids are distinct |
| IsbankScoring.ScoreCustomer | isbank_analysis/isbank_simple_analysis.py:17-116 | the appended dict carries the draws, consistent component scores, their total, its tier and the CLV |
| IsbankScoring.GenerateCustomers | isbank_analysis/isbank_simple_analysis.py:14-116 | the loop yields 1000 rows, row i scored from draw i, with pairwise distinct ids |
| IsbankScoring.Cut | isbank_analysis/isbank_simple_analysis.py:172 | `pd.cut` gives no label exactly when the value is in no bin, and otherwise the label of a bin containing it |
| IsbankScoring.InBinUnique | isbank_analysis/isbank_simple_analysis.py:172 | with increasing edges, a value lies in at most one bin |
| IsbankScoring.AgeGroupAsWritten | isbank_analysis/isbank_simple_analysis.py:172 | every drawable age except 25 gets a group; age 25 gets none |
| IsbankScoring.AgeGroupCorrected | isbank_analysis/isbank_simple_analysis.py:172 | with the lowest edge included, every drawable age gets the label its range names |
| GenerateData.StationNameValue | Automi_ai/generate_data.py:14 | the station list is `S01`..`S10`, zero-padded to two digits |
| GenerateData.StationNames | Automi_ai/generate_data.py:14 | there are 10 stations, with pairwise distinct names |
| GenerateData.BlockSize | Automi_ai/generate_data.py:32 | a block has `max(20, int(base·u/3))` items, so at least 20 |
| GenerateData.OrdinalIsLoopOrder | Automi_ai/generate_data.py:26-31 | the slot ordinal orders slots by day, then station, then team, then shift |
| GenerateData.LayoutInLoopOrder | Automi_ai/generate_data.py:26-33 | items are emitted in nesting order over valid slots |
| GenerateData.LayoutSize | Automi_ai/generate_data.py:20-33 | 120·10·3·3 blocks of at least 20 items give at least 216000 items |
| GenerateData.Clip01 | Automi_ai/generate_data.py:49-51 | `np.clip(x, 0, 1)` lies in [0, 1] and keeps values already in it |
| GenerateData.ProdRowFor | Automi_ai/generate_data.py:35-45 | a production row has its slot's station, team and shift, its id and defect flag; the cause is None exactly when there is no defect, and otherwise one of CAUSES |
| GenerateData.ImageRowFor | Automi_ai/generate_data.py:47-54 | blur, noise and brightness lie in [0, 1], and width and height take one of the listed sizes |
| GenerateData.GenerateLogs | Automi_ai/generate_data.py:23-54 | rows and image rows grow in lock-step, item k has id k + 1 in both, follows the loop layout, and there are at least 216000 items |
| GenerateData.EmitDays | Automi_ai/generate_data.py:26-54 | the day loop emits exactly the rows of the whole layout |
| GenerateData.EmitDay | Automi_ai/generate_data.py:28-54 | the station loop of one day appends that day's layout |
| GenerateData.EmitStation | Automi_ai/generate_data.py:29-54 | one station appends the blocks of its three teams |
| GenerateData.EmitTeam | Automi_ai/generate_data.py:31-54 | one team appends the blocks of its three shifts |
| GenerateData.EmitBlock | Automi_ai/generate_data.py:33-54 | the inner loop appends n items of one block, numbered on from the counter |
| GenerateData.EmittedRows | Automi_ai/generate_data.py:34-48 | the k-th production and image rows share id k + 1 |
| ImageDefects.Prediction | Automi_ai/visualize_image_defects.py:71 | the prediction is 1 exactly when the value is at least the threshold |
| ImageDefects.Confusion | Automi_ai/visualize_image_defects.py:72-74 | tp + fn is the number of defects and tp + fp the number of predicted positives |
| ImageDefects.Precision | Automi_ai/visualize_image_defects.py:75 | precision is tp/(tp+fp), or 0 with nothing predicted positive, and lies in [0, 1] |
| ImageDefects.Recall | Automi_ai/visualize_image_defects.py:76 | recall is tp/(tp+fn), or 0 with no defects, and lies in [0, 1] |
| ImageDefects.HigherThresholdFewerPositives | Automi_ai/visualize_image_defects.py:70-74 | a higher threshold never predicts more positives or more true positives |
| ImageDefects.RecallNonIncreasing | Automi_ai/visualize_image_defects.py:76 | recall never grows with the threshold |
| ImageDefects.ResultAt | Automi_ai/visualize_image_defects.py:77 | one result names its metric and threshold, with precision and recall in [0, 1] |
| ImageDefects.ThresholdAnalysis | Automi_ai/visualize_image_defects.py:68-77 | the results are every blur threshold in order, then every noise threshold in order |
| ImageDefects.ResultsRecallNonIncreasing | Automi_ai/visualize_image_defects.py:70-76 | along ascending thresholds, the recorded recall never increases |
| Text.NatToStringRoundTrip | asseco_data_systems/asseco_webscraping_pipeline.py:43 | a rendered page number reads back as itself |
| Text.ZeroPadRoundTrip | asseco_data_systems/asseco_webscraping_pipeline.py:76 | a zero-padded number reads back as itself |
| Text.ZeroPadInjective | asseco_data_systems/asseco_webscraping_pipeline.py:76 | distinct numbers pad to distinct strings |
| Text.Capitalize | asseco_data_systems/asseco_webscraping_pipeline.py:94 | `str.capitalize` upper-cases the first character and lower-cases the rest: only case changes, and no capital letter follows the first character |
| Text.ContainsAt | asseco_data_systems/asseco_webscraping_pipeline.py:103 | the substring test holds exactly when the pattern occurs at some position |
| Text.LexLessTransitive | asseco_data_systems/asseco_webscraping_pipeline.py:104 | the key order of `groupby` is transitive |
| Text.LexLessTotal | asseco_data_systems/asseco_webscraping_pipeline.py:104 | of two distinct keys, one sorts first |
| WebscrapingPipeline.PageUrlNumber | asseco_data_systems/asseco_webscraping_pipeline.py:43 | a later page's URL is the base, `catalogue/page-`, the page number and `.html`, and the number reads back |
| WebscrapingPipeline.PageUrlInjective | asseco_data_systems/asseco_webscraping_pipeline.py:43 | distinct pages have distinct URLs |
| WebscrapingPipeline.RatingLabel | asseco_data_systems/asseco_webscraping_pipeline.py:53-54 | the rating is the second CSS class when there is more than one, else `NA` |
| WebscrapingPipeline.ParseArticle | asseco_data_systems/asseco_webscraping_pipeline.py:48-62 | an article yields a row exactly when its anchor, price and availability are present; the row carries its title, price, availability and rating, with site `books_demo` and category `Books` |
| WebscrapingPipeline.PageRowsMeaning | asseco_data_systems/asseco_webscraping_pipeline.py:48-65 | a page contributes the rows of its articles up to the first one that raises, and is complete exactly when none raises |
| WebscrapingPipeline.ReadPage | asseco_data_systems/asseco_webscraping_pipeline.py:48-62 | the article loop returns the page's rows up to the first raise, and whether it finished |
| WebscrapingPipeline.FetchPage | asseco_data_systems/asseco_webscraping_pipeline.py:43-65 | one pass of the page loop advances the scrape state by one page |
| WebscrapingPipeline.StoppedStays | asseco_data_systems/asseco_webscraping_pipeline.py:63-65 | after the first exception, no later page changes the result |
| WebscrapingPipeline.ScrapeIsPrefix | asseco_data_systems/asseco_webscraping_pipeline.py:40-66 | the returned rows are a prefix of the fault-free rows, and equal to them when nothing raised |
| WebscrapingPipeline.ScrapeWithoutFaults | asseco_data_systems/asseco_webscraping_pipeline.py:40-66 | when every page answers and parses, the scrape returns every row of every page |
| WebscrapingPipeline.UrlsInOrder | asseco_data_systems/asseco_webscraping_pipeline.py:42-43 | the k-th URL requested is that of page k + 1 |
| WebscrapingPipeline.UrlsDistinct | asseco_data_systems/asseco_webscraping_pipeline.py:42-43 | no page is requested twice |
| WebscrapingPipeline.ScrapeBooks | asseco_data_systems/asseco_webscraping_pipeline.py:40-66 | pages are requested 1, 2, ... in order, and the loop stops right after the first exception; the rows are the scrape state after the last page |
| WebscrapingPipeline.ProductNameNumber | asseco_data_systems/asseco_webscraping_pipeline.py:76 | a product name is the category, ` Item `, then at least three digits that read back as the number |
| WebscrapingPipeline.ProductNamesDistinct | asseco_data_systems/asseco_webscraping_pipeline.py:76 | distinct numbers give distinct names |
| WebscrapingPipeline.SyntheticSite | asseco_data_systems/asseco_webscraping_pipeline.py:69-82 | `num` rows, row i named with number i + 1, carrying the site, the category and the drawn price, stock label and rating |
| WebscrapingPipeline.SyntheticNamesDistinct | asseco_data_systems/asseco_webscraping_pipeline.py:76 | the rows of a synthetic catalogue have distinct product names |
| WebscrapingPipeline.Stamp | asseco_data_systems/asseco_webscraping_pipeline.py:95 | stamping keeps every row and adds the one timestamp |
| WebscrapingPipeline.RunScrape | asseco_data_systems/asseco_webscraping_pipeline.py:85-99 | the output is the two sites' stamped frames in SITES order, every row with the same timestamp |
| WebscrapingPipeline.ConcatTimestamps | asseco_data_systems/asseco_webscraping_pipeline.py:95-99 | concatenating frames that share a timestamp keeps it on every row |
| WebscrapingPipeline.RunIsTwoFrames | asseco_data_systems/asseco_webscraping_pipeline.py:88-99 | the concatenation is the first site's frame followed by the second's |
| WebscrapingPipeline.CapitalizedElectronics | asseco_data_systems/asseco_webscraping_pipeline.py:94 | the electronics site gets category `Electronics` |
| WebscrapingPipeline.OfflineRun | asseco_data_systems/asseco_webscraping_pipeline.py:88-99 | without network deps, the output is 120 synthetic `Books` rows then 120 `Electronics` rows |
| WebscrapingPipeline.EmptyScrapeFallsBack | asseco_data_systems/asseco_webscraping_pipeline.py:89-92 | an empty scrape falls back to 120 synthetic `Books` rows |
| WebscrapingPipeline.InStock | asseco_data_systems/asseco_webscraping_pipeline.py:103 | `in_stock` is 1 exactly when the lower-cased availability contains `in stock`, and 0 when the value is missing |
| WebscrapingPipeline.StockLabelsInStock | asseco_data_systems/asseco_webscraping_pipeline.py:103 | of the synthetic labels, only `In stock` counts; `Low stock` and `Out of stock` do not |
| WebscrapingPipeline.NoNotInStock | asseco_data_systems/asseco_webscraping_pipeline.py:103 | a text without `n` or `N` is never in stock |
| WebscrapingPipeline.InStockIgnoresCase | asseco_data_systems/asseco_webscraping_pipeline.py:103 | texts that differ only in case get the same flag |
| WebscrapingPipeline.InStockColumn | asseco_data_systems/asseco_webscraping_pipeline.py:103 | the column has one flag per row |
| WebscrapingPipeline.SiteRowsMembers | asseco_data_systems/asseco_webscraping_pipeline.py:104 | a site's group is exactly the rows of that site |
| WebscrapingPipeline.GroupKeys | asseco_data_systems/asseco_webscraping_pipeline.py:104 | the group keys are the distinct sites of the rows, ascending |
| WebscrapingPipeline.SiteKpi | asseco_data_systems/asseco_webscraping_pipeline.py:104-110 | `products` is the site's row count, which is positive; `avg_price` is the mean of the site's prices and `in_stock_rate` the mean of 100 times its in-stock flags, within [0, 100] |
| WebscrapingPipeline.Mean | asseco_data_systems/asseco_webscraping_pipeline.py:106-108 | a mean times the count is the total, and a mean of percentages stays within [0, 100] |
| WebscrapingPipeline.Kpis | asseco_data_systems/asseco_webscraping_pipeline.py:104-109 | one KPI row per group key, in key order |
| WebscrapingPipeline.KpisCoverSites | asseco_data_systems/asseco_webscraping_pipeline.py:104-109 | every site of the input has a KPI row |
| WebscrapingPipeline.KpisPerSite | asseco_data_systems/asseco_webscraping_pipeline.py:104-110 | KPI rows have strictly ascending sites, positive product counts and rates in [0, 100] |
| WebscrapingPipeline.ScrapeTable.ComputeKpis | asseco_data_systems/asseco_webscraping_pipeline.py:102-113 | the frame gains the `in_stock` column, its rows stay the same, and the KPI table is returned |

## Left out

- Every chart, figure and display call, in every script: it draws nothing that the computed tables depend on.
- Random distributions and seeds. Drawn values are parameters, so reproducibility is not modelled.
- Floating-point behaviour. Reals are exact: the sine/cosine seasonal signals and `doy_sin`/`doy_cos` come as inputs, and so do the `month` of a date (held as a real cell) and the quantile/linspace thresholds.
- ImageDefects.ThresholdAnalysis: the thresholds are an input per metric, so the count of 14 results holds only for inputs of 7 thresholds each. Their ascending order is a precondition of the monotonicity lemma, not derived from `np.linspace`.
- The sklearn fitting, prediction and metrics (MAE, R², the metrics table): foreign library calls over floats.
- The parsing of `£` prices into floats and `.strip()` of titles and availability texts. An article carries its price and texts already parsed.
- The rounding of `avg_price`, `median_price` and `in_stock_rate` to 2 and 1 decimals. The KPI row holds the exact values.
- `median_price`: it needs a sort of real prices and adds nothing to the per-site grouping that is modelled.
- The network, the clock and the pause between sites (`time.sleep`). `fetch`, `HAVE_NET_DEPS` and the timestamp are parameters.
- File output (parquet, JSONL, Excel) and the printed summary lines.
- Text.Lower: only ASCII letters are case-mapped. The `contains` pattern is read as a plain substring, which is exact for `In stock`, since it has no regex metacharacters.
- PasteurModeling.SortByDate: it is a stable insertion sort, while pandas' default sort is not stable. The two differ only on duplicate dates, which the synthesized series does not have.
- PasteurModeling.AddColumn: `df[name] = ...` is modelled as appending a new column. Overwriting an existing name does not occur in this pipeline.
- The text of the exceptions that end the scrape: only the fact that one was raised is modelled.

## Findings

| source | as written | input that shows it | evidently intended | confidence | as-written member | corrected member |
|---|---|---|---|---|---|---|
| isbank_analysis/isbank_simple_analysis.py:172 | `pd.cut` with bins `[25, 35, 45, 55, 70]` is right-closed and excludes the lowest edge | age 25, which `randint(25, 70)` can draw, gets no age group | the first group `25-35` includes 25 (`include_lowest=True`) | not executed | IsbankScoring.AgeGroupAsWritten | IsbankScoring.AgeGroupCorrected |
