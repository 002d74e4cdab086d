# Insights Generator — KPI detection, chart selection and prompt templates in Dafny

Insights Generator is a small data-analysis web app. A user uploads a table. The app
detects a few keyword-named "KPI" columns, draws histograms, and sends a text summary
to a hosted language model, which writes a business report or answers a question.
This project models the parts of that pipeline that are plain logic:

- **KPI detection** (`detect_kpis`). The detector walks the columns in order and
  lower-cases each name. Four independent tests then look for keywords in it:
  "sales"/"revenue" gives "Total Sales", "profit" gives "Total Profit", "cost" gives
  "Total Cost", and "quantity"/"qty" gives "Total Quantity". Each matching test writes
  the column's sum under its label. A later match overwrites an earlier one.
- **Chart selection** (`auto_charts`). It keeps the first three numeric columns in
  column order and makes one chart per column, titled "<column> Distribution".
- **Prompt templates** (`insights_prompt`, `question_prompt`, `SYSTEM_PROMPT`). These
  are fixed text wrapped around the summary and, for questions, the user's question.

Layout:

- `text.dfy` (module `Text`) holds the two Python string operations the detector uses.
  `Lower` is `str.lower` on ASCII. `Contains` is the substring test `k in s`, proved
  equal to "k occurs at some position" (`ContainsIff`).
- `analytics.dfy` (module `Analytics`) models `analytics.py`. A table is a sequence of
  `Column(name, numeric, values)` with integer values, and a chart is its title.
  `DetectKpis` and `AutoCharts` are methods whose loops mirror the source's loops.
  `DetectKpis` is proved equal to the function `Kpis`, a left fold of
  `Apply` (one loop pass) over the columns. The lemmas state what `Kpis` means.
  `AutoCharts` states its result directly in terms of `NumericNames`, the model of
  `select_dtypes(include="number").columns`. Lemmas tie `NumericNames` to column
  positions.
- `prompts.dfy` (module `Prompts`) models `prompts.py` as functions. The fixed text is
  the source's text, character for character. It is split into named constants so that
  lemmas can name the exact position of the summary, the question, the five headings
  and the closing line. The report body is written as `Sections(Headings, Points)`:
  each heading followed by its bullet points. The system prompt is written the same way,
  as its introduction, then `Sections(Rules, …)` with one empty point per rule, then its
  closing sentence. Both give the same strings as the source's literals.

The templates are Dafny functions, so equal inputs always give the same string. No
separate lemma states this determinism.

## Model

| member | source | states |
|---|---|---|
| `Text.Lower` | analytics.py:10 | lower-casing keeps the length, leaves every character other than A to Z unchanged (so `_`, digits and spaces stay), and turns each of A to Z into its own lower-case letter (code point plus 32); no upper-case ASCII letter is left |
| `Text.LowerIdempotent` | analytics.py:10 | lower-casing an already lower-cased name changes nothing |
| `Text.ContainsIff` | analytics.py:12 | the substring test `k in s` holds exactly when `k` occurs in `s` at some position (both directions) |
| `Analytics.SumAppend` | analytics.py:13 | `Sum`, the model of `df[col].sum()` (also at lines 16, 19 and 22), adds a column's integer values, 0 for none: the sum of two runs of values one after the other is the sum of their sums |
| `Analytics.DetectKpis` | analytics.py:6-24 | the map built by the column loop, with its four separate overwriting `if`s, equals `Kpis(t)`, the fold of one loop pass over the columns in order |
| `Analytics.ApplyLabel` | analytics.py:12-22 | one loop pass adds a label exactly when the column triggers it, sets it to the column's sum, and leaves the label alone otherwise |
| `Analytics.KpisKeys` | analytics.py:12-22 | every key of the result is one of "Total Sales", "Total Profit", "Total Cost" or "Total Quantity" |
| `Analytics.KpisPresence` | analytics.py:12-22 | a label is present exactly when some column's lower-cased name contains one of that label's keywords (both directions) |
| `Analytics.KpisLastWins` | analytics.py:9-22 | when several columns trigger a label, its value is the sum of the last such column in column order, not a total across columns |
| `Analytics.KpisEmpty` | analytics.py:7-24 | the result is empty exactly when no column triggers any label; a table with no columns gives the empty map |
| `Analytics.ApplyIgnoreCase` | analytics.py:10-22 | two columns whose names agree after lower-casing, and whose values agree, change the map in the same way |
| `Analytics.KpisIgnoreCase` | analytics.py:9-22 | tables whose column names agree after lower-casing, and whose values agree, give the same KPI map |
| `Analytics.RevenueAnyCase` | analytics.py:10-13 | a single column named "Revenue", "REVENUE" or "revenue" gives exactly {"Total Sales": its sum} |
| `Analytics.TotalRevenueExample` | analytics.py:12-13 | a column "Total Revenue" with values 100, 200, 300 gives exactly {"Total Sales": 600} |
| `Analytics.CostOverwriteExample` | analytics.py:18-19 | columns "Cost" = [10, 20] then "cost_total" = [5] give exactly {"Total Cost": 5}: the later column overwrites |
| `Analytics.ProfitCostExample` | analytics.py:15-19 | a single column "profit_cost" sets both "Total Profit" and "Total Cost" to its sum, and nothing else |
| `Analytics.NumericNames` | analytics.py:29 | the names of the numeric columns are never more than the columns; which names they are, and in what order, is stated by `Analytics.NumericNamesAt` and `Analytics.NumericNamesFrom` |
| `Analytics.AutoCharts` | analytics.py:27-37 | makes exactly min(3, number of numeric columns) charts, and chart i is titled "<i-th numeric column> Distribution" |
| `Analytics.NumericNamesAt` | analytics.py:29-31 | a numeric column at position j is the numeric name at position "number of numeric columns before j", so charts follow column order |
| `Analytics.NumericNamesFrom` | analytics.py:29-35 | every numeric name, and so every chart title, comes from a numeric column; non-numeric columns never produce a chart |
| `Analytics.AllNumericNames` | analytics.py:29-31 | when every column is numeric, the numeric names are all the names in order; together with the ensures of `Analytics.AutoCharts`, five numeric columns give charts for the first three |
| `Analytics.NoNumericNames` | analytics.py:29-31 | a table with no numeric column has no numeric names, so no chart is made |
| `Prompts.SystemPromptRules` | prompts.py:3-18 | `SystemPrompt`, which is `SYSTEM_PROMPT`'s text character for character, opens with the analyst introduction ending in "Rules:" and then lists the six rules in the source's order, each after the end of the previous one |
| `Prompts.InsightsPrompt` | prompts.py:21-51 | the report prompt is the fixed head, then the summary verbatim, then the fixed tail; its length is the summary's length plus 699 |
| `Prompts.InsightsHeadings` | prompts.py:30-46 | whatever the summary, the report prompt contains "1. Executive Summary" through "5. Actionable Recommendations", each after the end of the previous one |
| `Prompts.SectionsInOrder` | prompts.py:28-49 | the headings of a run of sections occur in order, whatever text surrounds the run |
| `Prompts.InsightsPromptInjective` | prompts.py:21-51 | the summary can be read back from the report prompt, so different summaries give different prompts |
| `Prompts.QuestionPrompt` | prompts.py:54-72 | the question prompt is the fixed head, the summary, the "User Question:" block, the question, then the guidelines; the summary ends before the question starts; its length is the two inputs' lengths plus 374 |
| `Prompts.QuestionPromptOpening` | prompts.py:55-56 | whatever the inputs, the question prompt opens with a newline and then "Using the dataset summary below, answer the user's business question." |
| `Prompts.QuestionPromptClosing` | prompts.py:71-72 | whatever the inputs, the question prompt ends with "Do not include technical explanations." and a newline |
| `Prompts.QuestionPromptInjective` | prompts.py:54-72 | for summaries of equal length, equal question prompts mean equal summaries and equal questions |

## Left out

- `app.py` is not part of this model. It covers the Streamlit page, the CSV upload via
  `pd.read_csv`, the summary dictionary, the OpenAI call and `json.loads` of the reply.
  All of it is UI, I/O or the network. The prompt that names an analysis type
  (General Business, Sales, Marketing, Finance) is built in `app.py`, not in
  `prompts.py`, so it is left out too.
- `config.py` is not part of this model. It holds only a model name and a JSON schema
  that are used as prompt text.
- `app.py` imports `SYSTEM_INSTRUCTION`, but `prompts.py` defines only
  `SYSTEM_PROMPT`. This import defect is not modelled.
- Histograms: `plt.subplots` and `plot(kind="hist")` draw figures. A chart here is
  only its title string.
- `Analytics.Sum`: pandas `sum` works over floats and skips missing values. Here a
  column holds integers and `Sum` adds them all. The empty sum is 0.
- `Analytics.NumericNames`: pandas infers the data type of each column. Here each
  column carries an explicit `numeric` flag.
- `Analytics.DetectKpis`: a matching column is summed whether or not it is numeric.
  pandas would concatenate text or raise on such a column, and that is not modelled.
- `Analytics.Sum`: the sum is an unbounded integer. numpy's sum of an int64 column
  wraps around silently on overflow, and that wrap-around is not modelled.
- `Analytics.DetectKpis`: the result is a `map`, which has no order. The Python dict
  keeps its keys in first-insertion order (columns "Cost" then "Sales" list
  "Total Cost" first), and that order is not modelled.
- `Analytics.DetectKpis`: each column is its own entry here. With duplicate column
  labels, `df[col]` selects every column with that label and `.sum()` gives a Series,
  not one number; the model sums only the visited column's own values.
- `Text.Lower`: Python's `str.lower` follows Unicode. The model lower-cases only the
  ASCII letters A to Z.
- `Prompts.InsightsPrompt`, `Prompts.QuestionPrompt`: Python's f-string calls `str()`
  on the summary, which may be a dictionary. The model takes the summary (and the
  question) as already-rendered strings.
- `Prompts.QuestionPromptOpening`: the f-string begins with a newline, so the
  "Using the dataset summary below…" line starts at position 1, not 0. The lemma
  states it at position 1.
- Column names are strings. Python allows other column labels. On such a label
  `col.lower()` raises `AttributeError`, and `f"{col} Distribution"` would render it
  with `str()`; the model's `string` names rule both out, so neither is modelled.
