# Hospital length-of-stay app: the day-by-day narrative

The repository trains a gradient-boosted regressor that predicts how many days a
patient will stay in hospital. It serves the predictor through a Streamlit form.
The only decision logic of its own is in that form, in `predict_length_of_stay`
and `get_day_details`:

- The form normalises two text fields. Empty comorbidities become `'None'`. The
  procedure-code count is the number of comma-separated pieces, or 0 when the
  field is empty.
- The rounded prediction is clamped to the range 1..12 days.
- For each day 1..n of the stay, the form shows one sentence. The sentence is
  chosen by the severity label (`Mild`, `Moderate`, `Severe`) and by the day's
  position in the stay. The branches are tested in order: day 1, then day 2,
  then any day up to n-1, then the rest. So day 1 gets the first-day sentence
  even in a one-day stay, and day 2 gets the second-day sentence even in a
  two-day stay.

The project has three modules:

- `Wrappers` (`wrappers.dfy`) holds the `Option` type. It stands for Python's
  value-or-`None`.
- `DayDetails` (`day_details.dfy`) has `GetDayDetails`, which follows the app's
  nested conditionals branch for branch. Beside it is a reference definition of
  the same lookup: a day classification `Category`, followed by a
  (severity, category) table `Sentence`. The lemmas state the behaviour at the
  edges of a stay.
- `StayPrediction` (`stay_prediction.dfy`) has the clamp, the input
  normalisation, a model of Python's `str.split` for one separator, and the
  per-day loop. The loop is proved against the `Breakdown` specification
  function.

An unknown severity is not rejected. Every branch of `get_day_details` fails,
and the function returns `None` (length_of_stay_shreyans.py:310-336). The page
shows that as the text `None`. `GetDayDetails` returns `None` for such a label.

## Model

| member | source | states |
|---|---|---|
| DayDetails.GetDayDetails | length_of_stay_shreyans.py:308-336 | gives no text exactly when the label is not one of the three severities; otherwise gives the table sentence for the parsed severity and the day's category |
| DayDetails.ParseSeverity | length_of_stay_shreyans.py:310-336 | only the labels `Mild`, `Moderate` and `Severe` are recognised, each as its own severity, and a recognised label names its severity |
| DayDetails.CategoryWithinStay | length_of_stay_shreyans.py:311-316 | for 1 <= day <= n: first exactly on day 1, second exactly on day 2, interior exactly for 3 <= day < n, final exactly on day n >= 3 |
| DayDetails.DayOneIsFirstDay | length_of_stay_shreyans.py:311-312 | day 1 gets the severity's first-day sentence for every stay length, including a one-day stay |
| DayDetails.DayTwoIsSecondDay | length_of_stay_shreyans.py:313-314 | day 2 gets the severity's second-day sentence for every stay length, including a two-day stay |
| DayDetails.ShortStayHasNoInteriorOrFinal | length_of_stay_shreyans.py:311-318 | in a stay of one or two days no day is interior or final |
| DayDetails.MiddleDaysAreInterior | length_of_stay_shreyans.py:315-316 | each day with 3 <= day <= n-1 gets the severity's interior sentence |
| DayDetails.LastDayIsFinal | length_of_stay_shreyans.py:317-318 | day n of a stay of n >= 3 days gets the severity's final sentence |
| DayDetails.UnknownSeverityHasNoText | length_of_stay_shreyans.py:328-336 | a label other than the three severities gives no text (`None`), not a default sentence |
| DayDetails.SentenceInjective | length_of_stay_shreyans.py:308-336 | the twelve sentences are pairwise distinct, so a sentence determines its severity and its category |
| DayDetails.SameTextIffSameCategory | length_of_stay_shreyans.py:308-336 | for one severity, two days get the same text if and only if they fall in the same category |
| DayDetails.SeveritiesHaveDisjointText | length_of_stay_shreyans.py:308-336 | two different severities never give the same text, whatever the days |
| StayPrediction.Clamp | length_of_stay_shreyans.py:290 | the stay is in [1, 12] and is the point of that range nearest to the rounded prediction |
| StayPrediction.ClampCases | length_of_stay_shreyans.py:290 | a value in [1, 12] is kept; values below 1 become 1; values above 12 become 12 |
| StayPrediction.ClampIdempotentAndMonotone | length_of_stay_shreyans.py:290 | clamping twice equals clamping once; a larger prediction never gives a shorter stay |
| StayPrediction.Split | length_of_stay_shreyans.py:269 | splitting on a separator gives one more piece than there are separators, and no piece contains the separator |
| StayPrediction.JoinSplit | length_of_stay_shreyans.py:269 | joining the pieces with the separator gives back the original text |
| StayPrediction.ProcedureCodesCount | length_of_stay_shreyans.py:269 | empty procedure-code text counts 0 codes; non-empty text counts one more than its commas |
| StayPrediction.NormaliseInputs | length_of_stay_shreyans.py:267-269 | empty comorbidities become `None` and non-empty ones are unchanged; the count is the procedure-code count |
| StayPrediction.DaysUpToShape | length_of_stay_shreyans.py:300-306 | the first k entries number days 1..k in order, each with the lookup for its day |
| StayPrediction.BreakdownNumbered | length_of_stay_shreyans.py:300-306 | a stay of n >= 1 days has exactly n entries, numbered 1..n in ascending order, each with its day's lookup |
| StayPrediction.OneDayStay | length_of_stay_shreyans.py:300-312 | a one-day stay shows only the first-day sentence |
| StayPrediction.TwoDayStay | length_of_stay_shreyans.py:300-314 | a two-day stay shows the first-day then the second-day sentence |
| StayPrediction.FiveDaySevereStay | length_of_stay_shreyans.py:300-336 | a five-day severe stay shows ICU care, aggressive treatment, extended ICU care twice, then the recovery transition |
| StayPrediction.FinalSentenceOnlyOnLastDay | length_of_stay_shreyans.py:300-318 | in a stay of n >= 3 days the final sentence appears on the last day and on no other day |
| StayPrediction.UnknownSeverityBreakdown | length_of_stay_shreyans.py:300-306 | with an unrecognised severity every day of the breakdown has no text |
| StayPrediction.DayBreakdown | length_of_stay_shreyans.py:300-306 | the per-day loop returns exactly the breakdown: one entry per day 1..n in order |
| StayPrediction.ReportStay | length_of_stay_shreyans.py:290-306 | the shown stay is the clamp of the rounded prediction, lies in [1, 12], and has that many entries forming its breakdown |

## Left out

- Loading the CSV, training, grid search, the encoder and the regressor (lines 14-83) are calls into pandas, scikit-learn and XGBoost on floating-point data.
- Pickling and model inference (lines 72-73, 185, 289) are left out. The rounded prediction is an input of `ReportStay`.
- `np.round` (half-to-even rounding of a float) and `.astype(int)` at line 290 are left out. Only the integer clamp after them is modelled.
- Plots and error metrics (lines 85-145) are floating-point and rendering only.
- The Streamlit page (widgets, CSS, HTML markup, `st.success`, `st.balloons`) is UI rendering. The model keeps only the sequence of (day, text) pairs that the loop emits.
- The process and tunnel set-up (lines 342-367: `pkill`, ngrok, `subprocess.run`) is external services and I/O.
- Python's `str.split` is modelled for the one-character separator `,` only, which is the only way the app calls it.
