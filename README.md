# Hotel booking cancellation risk — a Dafny model

This project models the rule-based cancellation-risk estimator of the hotel
cancellation prediction application. The application has two paths to the same
kind of answer.

- **The prediction page** (`src/app/predict/page.tsx`). A single booking entered
  in the form gets a score. The score starts at a base of 30 and moves with the
  lead time, the deposit type, previous cancellations, special requests, booking
  changes and the market segment. It is clamped to 5–95. The page then shows:
  - a risk label and its colour;
  - the key factors behind the score;
  - recommendations;
  - a random confidence between 85 and 95.

  After a batch analysis, the page can also download the batch report as CSV.
- **The batch script** (`src/lib/python/predict_cancellations.py`). It reads an
  uploaded CSV or Excel file and adds any of the 13 expected columns the file
  lacks. It coerces the numeric columns to numbers, then fills missing cells:
  - numeric columns with the column median, or a fixed default when the column
    has no numbers;
  - categorical columns with the most frequent value, or a fixed default.

  It scores every row with the same rules, case-insensitively, plus a
  stay-duration term. It returns the predictions, summary statistics and the
  missing-value counts before and after filling.

Modules:

| module | file | models |
|---|---|---|
| `RiskRules` | risk_rules.dfy | the shared adjustments, the clamp, the four risk buckets |
| `PredictPage` | predict_page.dfy | `handlePredict` and `getRiskColor` |
| `CsvExport` | csv_export.dfy | the text `downloadBatchResults` builds |
| `Frames` | frames.dfy | the part of a pandas DataFrame the script uses, as a value (`Table`) and as a mutable object (`DataFrame`) |
| `Preprocess` | preprocess.dfy | `preprocess_data` |
| `Scoring` | scoring.dfy | `calculate_risk_probability` |
| `Pipeline` | process_file.dfy | `process_file` |
| `Agreement` | agreement.dfy | how the page's score and the script's score relate |
| `Stats`, `Text`, `Wrappers` | stats.dfy, text.dfy, wrappers.dfy | median, mean, min, max and mode; lower-casing, join/split, number printing and parsing; `Option`/`Result` |

Each procedure that updates state step by step is a method, proved against a
function of its inputs:
- `HandlePredict`, `CalculateRiskProbability` and `PreprocessData`;
- `ProcessFile`, which mutates a `DataFrame` in place;
- `DownloadBatchResults`, which appends to a string.

The lemmas state what those functions promise.

Behaviour of the code worth noting:
- a numeric column with no numbers is filled with 30 days of lead time, 2
  nights, 2 adults, and 0 for the other counts;
- a categorical column with no present value is filled with `july`,
  `no_deposit`, `online_ta`, `standard` or `bb`, and `unknown` for any other
  name;
- column names are matched exactly, so a file must use the expected names;
- the batch confidence is a random draw, unrelated to the score;
- a row made only of defaults scores 30 + 20 + 5 = 55, which is High Risk
  (`Pipeline.DefaultsOnlyScore`);
- the form's selects offer only lower-case deposit and segment words, so the
  script's lower-casing makes a difference only for uploaded files
  (`Agreement.CaseMatters`).

## Model

| member | source | states |
|---|---|---|
| RiskRules.LeadTimeAdjustment | src/app/predict/page.tsx:98-101 | exactly one lead-time band applies: +25 above 90 days, +15 above 60, +10 above 30, −10 below 7, nothing otherwise (the same bands as the script) |
| RiskRules.DepositAdjustment | src/app/predict/page.tsx:104-106 | no_deposit adds 20, refundable 10, non_refundable −15, and a text adds points exactly when it is one of these three words (the script applies the same table after lower-casing) |
| RiskRules.SegmentAdjustment | src/app/predict/page.tsx:118-120 | online_ta adds 5, corporate −10, direct −5, and a text adds points exactly when it is one of these three words (the script applies the same table after lower-casing) |
| RiskRules.Clamp | src/lib/python/predict_cancellations.py:127 | the clamped value lies in [5, 95], equals its input inside that range and the nearer bound outside it |
| RiskRules.DetermineRiskLevel | src/lib/python/predict_cancellations.py:131-140 | each bucket holds exactly its half-open range: Low below 25, Medium in [25, 50), High in [50, 75), Very High from 75 |
| RiskRules.RiskLevelMonotone | src/lib/python/predict_cancellations.py:131-140 | a higher probability never falls in a lower bucket |
| RiskRules.NamesDistinct | src/lib/python/predict_cancellations.py:133-140 | the four labels are distinct, so a label identifies its bucket |
| PredictPage.Score | src/app/predict/page.tsx:95-123 | the displayed probability lies in [5, 95] and is the clamp of base 30 plus every adjustment |
| PredictPage.ComputeProbability | src/app/predict/page.tsx:95-123 | the running score the handler accumulates term by term equals the clamped score |
| PredictPage.ScoreMonotone | src/app/predict/page.tsx:109-115 | more previous cancellations or booking changes, or fewer special requests, with everything else fixed never lower the score |
| PredictPage.ClassifyRisk | src/app/predict/page.tsx:126-140 | the label is the bucket of the probability and the colour is the one getRiskColor gives that label |
| PredictPage.GetRiskColor | src/app/predict/page.tsx:247-255 | the colour is grey exactly when the text is none of the four risk labels |
| PredictPage.CollectKeyFactors | src/app/predict/page.tsx:143-148 | the pushed messages are the triggered factor messages in the page's order |
| PredictPage.KeyFactorsDefault | src/app/predict/page.tsx:169 | the key factors are never empty, and are the standard-pattern message alone exactly when no factor triggers |
| PredictPage.KeyFactorsMembership | src/app/predict/page.tsx:143-148 | each of the five factor messages is listed if and only if its condition holds |
| PredictPage.KeyFactorsOrdered | src/app/predict/page.tsx:143-148 | the listed factors keep the fixed order, so none repeats |
| PredictPage.CollectRecommendations | src/app/predict/page.tsx:151-162 | the pushed recommendations are exactly the list Recommendations describes, in the same order |
| PredictPage.RecommendationsContents | src/app/predict/page.tsx:151-162 | the list always ends with the overbooking advice; the reminder and the upgrade appear exactly above 50; the deposit request exactly for no deposit above 40; the follow-up exactly for no special requests above 40 |
| PredictPage.Confidence | src/app/predict/page.tsx:166 | for a draw in [0, 1), Math.round(85 + draw·10) is a whole number from 85 to 95 |
| PredictPage.HandlePredict | src/app/predict/page.tsx:89-174 | the prediction holds the clamped score, its bucket label and matching colour, the key factors (or the standard-pattern message), the recommendations for the clamped score, and a confidence in [85, 95] |
| CsvExport.NumTextRoundTrip | src/app/predict/page.tsx:336-339 | a printed number parses back to the same value, so the file's numbers lose nothing |
| CsvExport.DownloadBatchResults | src/app/predict/page.tsx:330-360 | no text without a result; otherwise the text is the header, the prediction lines, the statistics block and the distribution lines, each followed by a newline |
| CsvExport.RowsText | src/app/predict/page.tsx:343-346 | the loop over the predictions appends each prediction's line with its newline, in order |
| CsvExport.StatisticsText | src/app/predict/page.tsx:349-357 | the nine appends of the summary block give exactly its nine lines, each with its newline |
| CsvExport.DistributionText | src/app/predict/page.tsx:358-360 | the loop over the distribution entries appends "level,count" and a newline for each, in key order |
| CsvExport.RowLineFields | src/app/predict/page.tsx:335-346 | a prediction's line split at its commas gives back its four cells in column order, when the risk label holds no comma |
| CsvExport.CsvLinesOrder | src/app/predict/page.tsx:334-360 | the file has n + 14 lines for n predictions: the header line first, then each prediction's row in order, then the nine summary lines (blank, "Summary Statistics", "Total Bookings,n", the average, median, minimum and maximum probability with a percent sign, blank, "Risk Distribution"), then "Low Risk,count", "Medium Risk,count", "High Risk,count", "Very High Risk,count" |
| CsvExport.CsvLayout | src/app/predict/page.tsx:343-360 | read back line by line, the text is exactly its lines followed by one empty piece, so the file splits into n + 15 pieces |
| Frames.MissingCounts | src/lib/python/predict_cancellations.py:161 | a column is listed exactly when it has a missing cell, with its number of missing cells |
| Frames.DataFrame.AddBlankColumn | src/lib/python/predict_cancellations.py:25 | the frame gains one all-missing column at the end, and nothing else changes |
| Frames.DataFrame.Assign | src/lib/python/predict_cancellations.py:34 | assigning a column replaces that column's cells and leaves the header, the other columns and the height unchanged |
| Frames.DataFrame.FillNa | src/lib/python/predict_cancellations.py:48-50 | only the named column changes, and only in its missing cells |
| Frames.FilledComplete | src/lib/python/predict_cancellations.py:48-50 | filling with a present value leaves no missing cell |
| Preprocess.Coerce | src/lib/python/predict_cancellations.py:34 | numbers stay; text becomes a number exactly when it parses, and then becomes that number; nothing else survives |
| Preprocess.NumericColumnFilled | src/lib/python/predict_cancellations.py:32-50 | after its step a numeric column holds only numbers: each cell that is or parses as a number keeps it, every other cell holds the fill |
| Preprocess.NumericFillValue | src/lib/python/predict_cancellations.py:35-50 | the numeric fill is the median of the column's numbers, between their least and greatest; it is the column's default when there are none |
| Preprocess.FillNumericColumn | src/lib/python/predict_cancellations.py:33-50 | one numeric step on the frame: only that column changes, and it becomes the coerced column with its missing cells set to the median of its numbers or the default |
| Preprocess.CategoricalColumnFilled | src/lib/python/predict_cancellations.py:55-69 | after its step a categorical column has no missing cell; present cells are unchanged |
| Preprocess.CategoricalFillValue | src/lib/python/predict_cancellations.py:57-69 | the categorical fill is a present value of the column that no other value outnumbers; it is the column's default when every cell is missing |
| Preprocess.FillCategoricalColumn | src/lib/python/predict_cancellations.py:56-69 | one categorical step on the frame: only that column changes, and its missing cells take the first mode or the default |
| Preprocess.AddColumnsHeader | src/lib/python/predict_cancellations.py:23-25 | the first pass keeps the file's columns in place and appends the missing expected ones in list order |
| Preprocess.PreprocessedColumns | src/lib/python/predict_cancellations.py:12-71 | the result has the file's columns plus the expected ones; each numeric column is its original after the numeric step, each categorical one after the categorical step, and all others are untouched |
| Preprocess.PreprocessedComplete | src/lib/python/predict_cancellations.py:12-71 | every expected column exists with no missing cell, and every numeric one holds only numbers |
| Preprocess.PreprocessedWidth | src/lib/python/predict_cancellations.py:16-25 | the preprocessed frame has at least the 13 expected columns |
| Preprocess.PreprocessedIdempotent | src/lib/python/predict_cancellations.py:12-71 | preprocessing an already preprocessed frame changes nothing |
| Preprocess.AddExpectedColumns | src/lib/python/predict_cancellations.py:23-25 | the in-place loop leaves the frame equal to the first pass's result |
| Preprocess.FillPass | src/lib/python/predict_cancellations.py:32-69 | the in-place loop over a column list leaves the frame equal to the pass's result |
| Preprocess.PreprocessData | src/lib/python/predict_cancellations.py:12-71 | the frame, mutated in place, ends up as the preprocessed table of the frame it started as |
| Scoring.RiskProbability | src/lib/python/predict_cancellations.py:73-127 | a row's probability lies in [5, 95] and equals the raw score when the raw score is in that range |
| Scoring.StayAdjustment | src/lib/python/predict_cancellations.py:119-124 | a stay above seven nights takes 5 points, one below two nights adds 5, and two to seven nights change nothing |
| Scoring.CalculateRiskProbability | src/lib/python/predict_cancellations.py:73-129 | the score accumulated term by term and clamped equals the row's probability |
| Scoring.CaseInsensitive | src/lib/python/predict_cancellations.py:90-117 | deposit and segment text scores the same in any letter case |
| Scoring.RiskProbabilityMonotone | src/lib/python/predict_cancellations.py:99-108 | more previous cancellations or booking changes never lower the probability, and more special requests never raise it |
| Pipeline.PredictRows | src/lib/python/predict_cancellations.py:170-180 | the loop over the rows yields exactly one prediction per row, in row order |
| Pipeline.Summarize | src/lib/python/predict_cancellations.py:183-201 | the statistics block is the one StatisticsOf gives; its four bucket counts add up to the number of predictions; min ≤ median ≤ max and min ≤ average ≤ max; and when every score lies in [5, 95], so do min and max |
| Pipeline.ProcessFile | src/lib/python/predict_cancellations.py:142-215 | the outcome is the one Processed defines for the path, the readers' results and the draws, whose error cases, predictions, statistics and data quality the lemmas below state |
| Pipeline.FormatOf | src/lib/python/predict_cancellations.py:147-152 | a path ending in .csv selects the CSV reader, one ending in .xlsx or .xls (and not .csv) the Excel reader, and any other path no reader, which gives the unsupported-format error |
| Pipeline.ProcessedErrors | src/lib/python/predict_cancellations.py:147-155 | an unsupported extension, a reader's exception and an empty frame each give their own error message; a report comes back exactly when none of these happens |
| Pipeline.PredictionsFollowRows | src/lib/python/predict_cancellations.py:170-180 | prediction k has booking id k + 1, the row's probability in [5, 95], that probability's bucket, and a confidence in [85, 95) |
| Pipeline.ReportPredictions | src/lib/python/predict_cancellations.py:164-206 | the report's total bookings and rows processed equal the frame's height, and its predictions are those of the preprocessed frame |
| Pipeline.DistributionTotal | src/lib/python/predict_cancellations.py:184-189 | the four bucket counts add up to the number of bookings |
| Pipeline.ReportStatistics | src/lib/python/predict_cancellations.py:197-200 | 5 ≤ min ≤ median ≤ max ≤ 95 and min ≤ average ≤ max |
| Pipeline.ReportDataQuality | src/lib/python/predict_cancellations.py:203-207 | the missing counts list only columns with missing cells; after preprocessing they name no expected column; other columns keep their counts; at least 13 columns are processed |
| Pipeline.DefaultRowScore | src/lib/python/predict_cancellations.py:76-127 | a row holding the defaults scores 30 + 20 + 5 = 55 |
| Pipeline.DefaultsOnlyScore | src/lib/python/predict_cancellations.py:38-69 | when a file has none of the expected columns, every row scores 55 and is High Risk |
| Agreement.PythonScoreOfForm | src/lib/python/predict_cancellations.py:73-127 | the script's score of a form booking is the form's raw score of the lower-cased booking, plus the stay term, clamped |
| Agreement.SameScoreForRegularStays | src/app/predict/page.tsx:95-123 | for lower-case text and a stay of 2 to 7 nights, the script gives exactly the page's probability and bucket |
| Agreement.StayShiftsScore | src/lib/python/predict_cancellations.py:120-124 | otherwise the script's raw score is 5 below the page's above seven nights and 5 above it below two nights |
| Agreement.CaseMatters | src/app/predict/page.tsx:104-106 | a deposit word in any letter case other than lower case earns no deposit points on the page, but earns its non-zero points in the script, which lower-cases it first |
| Agreement.SegmentCaseMatters | src/app/predict/page.tsx:118-120 | likewise, a segment word in any other letter case earns no segment points on the page but its non-zero points in the script |
| Stats.MedianBounds | src/lib/python/predict_cancellations.py:35 | the median of a non-empty list lies between its least and greatest element |
| Stats.MeanBounds | src/lib/python/predict_cancellations.py:197 | the mean of a non-empty list lies between its least and greatest element |
| Stats.Mode | src/lib/python/predict_cancellations.py:57-59 | the mode is a value of the list that no other value outnumbers |
| Text.SplitJoin | src/app/predict/page.tsx:345 | joining cells that avoid the separator and splitting again gives the cells back |

## Left out

- Scoring.CalculateRiskProbability: the final `round(probability, 2)` is not
  modelled. Probabilities are exact reals, and the bucket is taken from the
  unrounded value. A raw score just below 25, 50 or 75 that rounds up to the
  boundary would change bucket in the script.
- Pipeline.Summarize: `round(..., 2)` of the mean, median, min and max is not
  modelled. Floating-point arithmetic is also out: the mean is the exact
  rational mean.
- Pipeline.PredictionsFollowRows: the booking id is `idx + 1` for the
  frame's index label `idx`. A `Table` has no index, so the model assumes the
  readers' default index 0, 1, 2, … and gives row k the id k + 1. A CSV whose
  data rows have one more field than the header (for example, a trailing
  comma on every line) gets its first column as the index in pandas. Its ids
  are then that column's values plus one, which this model does not capture.
- Pipeline.PredictionsFollowRows: the confidence is `85 + draw·10` without
  `round(..., 2)`, so the bound is [85, 95) rather than the rounded [85, 95].
- Stats.Mode: picks the first of the most frequent values in column order.
  pandas picks the smallest in its own sort order. Only "no other value
  outnumbers it" is stated (`Preprocess.CategoricalFillValue`).
- `pd.to_numeric` covers optionally signed decimal numerals only. Exponents,
  surrounding whitespace, `inf` and `nan` spellings are treated as
  non-numbers. Numbers are held as exact reals.
- `str(...).lower()` lower-cases ASCII letters only.
- Only the exact text of deposit and segment cells is matched. A number in
  those columns prints as digits, which no rule word equals, so it scores as
  empty text.
- The file readers (`pd.read_csv`, `pd.read_excel`) are parameters: a function
  from the format to a frame or an exception message. Any exception raised
  later in the script is not modelled.
- `np.random.rand()` and `Math.random()` are parameters (`draw`).
- The `original_df` copy is unused by the script and is left out.
- The `"success": True` flag and the `processed_data` sample of the first ten
  rows are left out of the report.
- The order of keys in `missing_before`/`missing_after` is left out: they are
  maps.
- `df[col].fillna(value, inplace=True)` on a column selection is taken to update
  the frame, as the script relies on.
- The script's command-line entry point, the API route that runs it, and the
  MIME-type checks are not part of this model.
- The page's form numbers are whole numbers (slider and integer inputs), so the
  page's arithmetic is on `int`.
- CsvExport: the report's numbers come as JSON with at most two decimals. They
  are held as whole hundredths and printed as JavaScript's `String` prints
  them. Other floating-point values, exponent notation and non-finite values
  are not modelled.
- CsvExport: the distribution entries follow the key order the script writes.
  That order is taken as given rather than derived from JavaScript's
  property-order rules.
- The Blob, the object URL, the file name with today's date, the toasts,
  loading flags and rendering are left out. They are user-interface effects.
