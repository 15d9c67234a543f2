# Nutrition analysis app: parser and meal history

A Dafny model of the logic in `app.py`, a Streamlit app. The user types a dish name. The app asks a
language model for that dish's nutrients, scrapes the model's free-text answer into numbers for five
nutrients and, on request, appends the dish to a meal history. It then charts the total of each
nutrient over the history.

The five nutrients are the labels エネルギー (energy), たんぱく質 (protein), 脂質 (fat), 糖質
(carbohydrate) and カリウム (potassium). The model keeps these Japanese strings as the map keys, as
the app does.

Modules:

- `Text` (`text.dfy`): splitting a text on `'\n'` (`SplitLines`, the inverse of `Join`) and the
  substring test `IsSubstring`, which is Python's `nutrient in line`.
- `NumberToken` (`number_token.dfy`): the regular-expression search `[0-9]+\.?[0-9]*`.
  - `FirstNumberToken` finds the leftmost match, taken greedily.
  - It is proved to be the leftmost-longest match of the pattern's language.
  - `Value` is the number that `float()` reads from the match, kept as an exact `real`.
- `Nutrition` (`nutrition.dfy`): `parse_nutrition`.
  - `ParseNutrition` is the nested loop over lines and labels, written as a method.
  - It is proved equal to the fold `ParseLines` over the lines. Each line contributes the map
    `LineReadings`.
- `History` (`history.dfy`): the history rows and the session ledger.
  - A history row (`Entry`, a map from column name to `Cell`) is built from a dish name and its
    readings.
  - The session's history list is the class `Ledger`.
  - `AddToHistory` and `SubmitDish` (the analysis part of `main`) change it.
  - The column totals behind both charts are `Totals` and `ColumnSum`.
- `Analysis` (`prompt.dfy`): the prompt that `analyze_nutrition` sends for a dish.
- `Examples` (`examples.dfy`): concrete inputs worked through the model.
- `Wrappers` (`wrappers.dfy`): `Option`.

Behaviour of the code that a reader might not expect, and that the model keeps:

- A line that names several labels stores its first number under every label it names
  (app.py:25-29). "脂質と糖質 10g" gives fat 10 and carbohydrate 10. One might expect only one of
  the labels to get the number. `SharedLineSameValue` and `SharedLineExample` prove the code's
  behaviour.
- A later line that hits a label overwrites an earlier one (`LastHitWins`).
- A missing column does not total zero. One might expect a label that is in no row to total zero.
  Instead `df[nutrients]` (app.py:47 and app.py:92) raises `KeyError` when some label occurs in no
  row of the history. The model returns `TotalsView.MissingColumn` in that case.
- An empty history has no totals. One might expect all-zero totals. Instead both places that total
  the history first check that it is non-empty (app.py:40 and app.py:89), and otherwise show a
  message or nothing. The model returns `TotalsView.NoHistory`.
- Numbers are unsigned. A number directly followed by a dot is accepted and reads as the same
  integer: "15." reads as 15. A '-' before a number is ignored ("脂質: -3g" gives 3).

## Model

| member | source | states |
|---|---|---|
| Text.IsSubstring | app.py:26 | Python's `nutrient in line`; a label can only occur in a line at least as long as itself; Text.IsSubstringIff ties it to an occurrence at some offset |
| Text.SuffixSubstring | app.py:16 | what occurs in the tail of a text occurs in the text |
| Text.SplitLines | app.py:24 | `text.split('\n')` yields at least one line, and no line contains a newline |
| Text.JoinSplit | app.py:24 | joining the split lines with newlines gives the text back, so splitting loses and invents nothing |
| Text.SplitJoin | app.py:24 | splitting the newline-join of newline-free lines gives exactly those lines back |
| Text.SplitLinesInText | app.py:24 | every line of the split occurs in the text |
| Text.IsSubstringIff | app.py:26 | `nutrient in line` holds exactly when the label occurs at some position of the line |
| Text.SubstringTrans | app.py:24-26 | a label inside a line is inside the text that contains the line |
| Text.FirstCharAbsent | app.py:26 | a label whose first character the line lacks is not in the line |
| NumberToken.FirstNumberToken | app.py:27 | there is no match exactly when the line has no ASCII digit; otherwise the match has at least one integer digit, a fraction only after a dot, lies inside the line, and its text is the slice of the line at its position |
| NumberToken.FirstNumberTokenIsLeftmostLongest | app.py:27 | the match is in the language of `[0-9]+\.?[0-9]*`, no substring in that language starts earlier, and none starting at the same place is longer; with no match, no substring of the line is in the language |
| NumberToken.MatchIsPattern | app.py:27 | every well-formed match's text is in the pattern's language |
| NumberToken.MatchStartsWithDigit | app.py:27 | every text in the pattern's language starts with a digit |
| NumberToken.NoMatchAtNonDigit | app.py:27 | no text in the pattern's language starts at a non-digit position |
| NumberToken.LongestAtStart | app.py:27 | from the first digit, no text in the pattern's language is longer than the greedy match |
| NumberToken.NumberMatch.Text | app.py:27-29 | `match.group(1)`, the matched text; NumberToken.FirstNumberToken places it in the line and NumberToken.MatchIsPattern puts it in the pattern's language |
| NumberToken.Value | app.py:29 | `float(match.group(1))` as an exact number; NumberToken.ValueIsDecimal and NumberToken.ValueWholePart state its value |
| NumberToken.ValueIsDecimal | app.py:29 | `float("ddd.fff")` is the integer `dddfff` divided by ten to the number of fraction digits |
| NumberToken.ValueWholePart | app.py:29 | the value lies between its integer digits' value and that plus one |
| NumberToken.ValueOfWhole | app.py:29 | a match without a dot reads as the integer its digits spell |
| NumberToken.DigitsConcat | app.py:29 | reading a digit string in two pieces shifts the front piece left by the back piece's length |
| NumberToken.DigitsBound | app.py:29 | a digit string of length n reads below ten to the n |
| NumberToken.TokenWithDot | app.py:27 | a line whose first digit run is followed by a dot and a second digit run matches exactly those parts |
| NumberToken.TokenWithoutDot | app.py:27 | a line whose first digit run is not followed by a dot matches exactly that run |
| Nutrition.LineValue | app.py:27-29 | the number a line contributes is never negative |
| Nutrition.ParseLines | app.py:22-30 | the parse result's keys are among the five labels and its values are non-negative |
| Nutrition.LineReadings | app.py:25-29 | what one line stores, the inner loop over the labels; Nutrition.ReadingsKeys states which labels it stores |
| Nutrition.ParseNutritionSpec | app.py:21-30 | the result of parse_nutrition on a text; Nutrition.ParseNutrition computes it and Nutrition.ParsedIff, Nutrition.LastHitWins and Nutrition.NoLabelNoData state what it holds |
| Nutrition.ParseNutrition | app.py:21-30 | the nested loops over lines and labels end with exactly `ParseNutritionSpec(text)`, the fold of the lines' readings |
| Nutrition.ReadingsKeys | app.py:25-29 | one line stores a label exactly when the label is one of the five, occurs in the line and the line has a number |
| Nutrition.ParsedIff | app.py:24-29 | a label is in the result exactly when it is one of the five and some line contains it together with a number |
| Nutrition.LastHitWins | app.py:24-29 | a label's value is the number of the last line that contains it with a number |
| Nutrition.SharedLineSameValue | app.py:25-29 | two labels whose last hit is the same line both get that line's number |
| Nutrition.LineWithoutHitKeeps | app.py:26-28 | a line that lacks a label or a number leaves that label's entry as it was |
| Nutrition.LineWithoutDigitKeeps | app.py:27-28 | a line with no digit changes nothing |
| Nutrition.ParsedLabelOccurs | app.py:24-29 | every key of the result is one of the five labels and occurs in the text |
| Nutrition.NoLabelNoData | app.py:22-30 | a text that names none of the labels, the empty text included, parses to the empty map |
| Nutrition.OnlyHit | app.py:25-29 | a line that names exactly one label and has a number stores that label only |
| Nutrition.SingleLine | app.py:24 | a text without newlines is parsed as one line |
| Analysis.Prompt | app.py:16 | the prompt starts with the dish name, and the rest of it names each of the five labels |
| Analysis.TailNamesEveryLabel | app.py:16 | the fixed instruction after the dish name names each of the five labels |
| Analysis.PromptInjective | app.py:16 | different dish names give different prompts |
| Analysis.PromptNamesEveryLabel | app.py:16 | every prompt names each of the five labels the parser looks for |
| History.MakeEntry | app.py:78-79 | the row's columns are the dish-name column plus the readings' labels |
| History.EntryReadings | app.py:78-79 | the amounts read back from a row are keyed by labels only |
| History.DishKeyIsNoLabel | app.py:78-79 | the dish-name column 料理名 is none of the five labels, so `update` cannot overwrite it |
| History.EntryRoundTrip | app.py:78-79 | a row holds the dish name under 料理名 and gives back exactly the readings it was built from |
| History.ParsedEntryWellFormed | app.py:72-79 | a row built from any parse result has the dish name and only non-negative amounts under labels |
| History.Ledger.constructor | app.py:33-34 | the session starts with an empty history |
| History.Ledger.AddToHistory | app.py:36-37 | the entry is appended at the end, earlier rows are unchanged, and well-formedness of the rows is kept |
| History.Ledger.SubmitDish | app.py:64-81 | an empty dish name does nothing; otherwise the reply is parsed, and a non-empty result is appended as one row exactly when the button was pressed |
| History.Contribution | app.py:47 | what one row adds to a column total: pandas skips a row's missing cell; History.AbsentColumnIsZero and History.ColumnSumIsSumOfPresent state its effect |
| History.ColumnSum | app.py:47 | `.sum()` of one column over the history; History.ColumnSumIsSumOfPresent states it is the sum of the present amounts |
| History.HasColumn | app.py:47 | the column exists in the data frame when some row has it; History.Totals reports the `KeyError` exactly when a label has no column |
| History.ColumnSumsArePresentSums | app.py:47 | every column total is the sum of that column's present amounts |
| History.Ledger.TotalsNonNegative | app.py:89-92 | the totals charted for a ledger of rows built by the app are never negative |
| History.Totals | app.py:39-52 | there are no totals exactly when the history is empty; the column lookup fails exactly when some label is in no row; otherwise the totals cover exactly the five labels, and each is the sum of that label's present amounts |
| History.ColumnSumIsSumOfPresent | app.py:46-47 | each column total is the sum of the amounts of the rows that have the column, in history order |
| History.AbsentColumnIsZero | app.py:46-47 | a column in no row totals zero |
| History.ColumnSumNonNegative | app.py:46-47 | totals over rows the app built are never negative |
| History.ColumnSumConcat | app.py:91-92 | column totals add up over a split of the history |
| History.ColumnSumPair | app.py:91-92 | a two-row history totals the two rows' amounts |
| History.TotalsAfterAppend | app.py:89-92 | appending a row to a charted history adds that row's amounts to each total |
| Examples.ProteinExample | app.py:21-30 | "たんぱく質は15.5gです" parses to protein 15.5 and nothing else |
| Examples.EnergyExample | app.py:21-30 | "エネルギー: 250kcal" parses to energy 250 and nothing else |
| Examples.EmptyTextExample | app.py:21-30 | the empty text parses to the empty map |
| Examples.PotassiumLastLineWins | app.py:24-29 | "カリウム 500mg" then "カリウム 600mg" on the next line gives potassium 600 |
| Examples.SharedLineExample | app.py:25-29 | "脂質と糖質 10g" gives fat 10 and carbohydrate 10 |
| Examples.NoSignExample | app.py:27-29 | "脂質: -3g" gives fat 3 |
| Examples.TotalsExample | app.py:89-92 | two rows totalling energy 800, protein 20 and fat 10, with carbohydrate in neither row, make the column lookup fail |

## Left out

- `get_api_key` and the API-key gate in `main` are not modelled. They read secrets and user input.
- The Gemini call in `analyze_nutrition` is not modelled. It is a network call. Only the prompt is
  modelled. The reply reaches `Ledger.SubmitDish` as a parameter.
- The text input and the "add to history" button become `SubmitDish` parameters.
- The Streamlit output is not modelled: titles, spinners, written results, success messages, the
  data frame view and the bar charts.
- The target intakes and the comparison data frame are not modelled. The target is a constant that
  is only displayed. The model covers only the totals that are compared with it.
- Numbers are exact decimals, not binary floating point. `float()` rounding is not modelled.
- Maps have no order. The insertion order of the parse result and of a row's columns is not
  modelled.
- pandas turns a cell that a row lacks into NaN and skips it when summing. The model gives that row
  a contribution of zero to the column total, which gives the same sums.
- History.Ledger.SubmitDish: Streamlit reruns the script on each interaction. One call stands for the run
  in which the button is read, and it parses the reply itself. Reruns and caching are not modelled.
