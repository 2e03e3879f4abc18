# IMC calculator — model of the assessment logic

This project models the logic of a one-page Shiny form (`app.py`) that
computes a person's body mass index (IMC, *índice de massa corporal*) from a
name, a height in centimetres and a weight in kilograms, classifies it into
one of six bands, and draws a two-bar chart against the ideal value 24.9.
Pressing "Calcular IMC" triggers three handlers. Two of them read the same
inputs and compute:

- `resultado` strips the name, checks name, then height, then weight (the
  first failure shows its own message), computes
  `imc = peso / (altura_cm / 100) ** 2` and picks the category label through
  a chained conditional;
- `grafico_imc` repeats the same checks as a single disjunction, draws no
  chart when it holds, and otherwise plots the bars `[24.9, imc]` with the
  y axis running from 0 to `max(40, imc + 10)`.

The model is three modules of pure definitions:

- `Text` — Python's `str.strip()` over `seq<char>`, with the whitespace set
  of `str.isspace()`;
- `Imc` — the categories and their bands, the classifier, the formula and
  the validation with its messages;
- `Handlers` — the two handlers as functions of the three inputs, the chart
  data and the y-axis bound, and the lemmas that tie the handlers together.

Heights, weights and BMI values are exact `real`s. The source works on
floats, but every property below is a statement about the formula and the
thresholds, not about rounding.

The messages are the code's Portuguese texts. The input domains (0–300 cm, 1–350 kg) are bounds
of the browser widgets, and the code does not check them, so the model
accepts every real.

## Model

| member | source | states |
|---|---|---|
| Text.IsSpace | app.py:83 | the whitespace set of Python's `str.isspace()`, which `strip()` removes; it holds for the blank and for no ASCII letter or digit |
| Text.TrimStart | app.py:83 | the result is a suffix of the input that does not start with whitespace, and everything dropped is whitespace |
| Text.TrimEnd | app.py:83 | the result is a prefix of the input that does not end with whitespace, and everything dropped is whitespace |
| Text.Strip | app.py:83 | `strip()` yields a string that neither starts nor ends with whitespace, and it is empty exactly when the name is all whitespace |
| Text.StripIsSlice | app.py:83 | the stripped name is a contiguous slice of the entered name |
| Text.StripIdempotent | app.py:83 | stripping an already stripped name changes nothing |
| Text.StripIgnoresPadding | app.py:83 | whitespace added before or after a name does not change the stripped name (proved by induction on the padding) |
| Imc.Classify | app.py:98-105 | classification is total, and every BMI falls in the half-open band [lower cut, upper cut) of the category returned |
| Imc.BandIsUnique | app.py:98-105 | the bands do not overlap: any category whose band contains the value is the one the chained conditional returns |
| Imc.ClassifyMonotone | app.py:98-105 | a larger BMI never gets a lower category |
| Imc.ClassifyBoundaries | app.py:98-105 | 18.5, 25, 30, 35 and 40 each fall in the band above them; any value below 18.5 is underweight |
| Imc.LabelsDistinct | app.py:99-104 | the six category texts are pairwise different |
| Imc.Label | app.py:99-104 | the text used for each category; the three obesity grades, and only they, share the stem "com obesidade grau " |
| Imc.ErrorText | app.py:88-93 | the message shown for each failed check; every message is a request that starts "Por favor, " |
| Imc.ErrorTextsDistinct | app.py:89-93 | the three failure messages are pairwise different, so each failure is identifiable |
| Imc.Bmi | app.py:95-96 | for a non-zero height, imc × height_cm² = weight × 10000, and a positive weight gives a positive BMI |
| Imc.Validate | app.py:88-93 | a blank name is reported first, then a zero height, then a zero weight; passing validation implies both numbers are non-zero |
| Imc.NameCheckedFirst | app.py:83-89 | a name that strips to nothing gives the name message whatever the height and weight |
| Imc.HeightCheckedBeforeWeight | app.py:90-93 | with a valid name and zero height, the height message wins even when the weight is zero too |
| Imc.ValidateOk | app.py:88-96 | validation passes exactly when the name is not blank and both numbers are non-zero, and then the divisor altura_cm / 100 is non-zero |
| Imc.Examples | app.py:39 | 70 kg at 170 cm is a normal weight (the page's worked example); 100 kg at 150 cm is grade III; 45 kg at 170 cm is underweight |
| Handlers.Resultado | app.py:82-106 | a message appears exactly when validation fails and is that failure's text; otherwise the BMI satisfies the formula, lies in its category's band, and is reported with that category's text |
| Handlers.YMax | app.py:145 | the top of the y axis is at least 40 and at least imc + 10, and equals one of the two |
| Handlers.GraficoImc | app.py:111-145 | a chart exists exactly when the name is not blank and both numbers are non-zero; it has the ideal bar (exactly 24.9) and then the user's bar (the BMI), with the y axis from 0 up to a top that equals max(40, imc + 10) |
| Handlers.IdealImcIsNormal | app.py:123 | the ideal value 24.9 drawn beside the user's BMI is below 25 and is itself classified as a normal weight |
| Handlers.BarsFit | app.py:123-126 | both bars are strictly below the top of the y axis |
| Handlers.HandlersAgree | app.py:88-122 | the chart is drawn exactly when the result handler reaches the computation, and the user's bar is the BMI the result reports |
| Handlers.NoChartOnMessage | app.py:117-119 | whenever a message is shown, no chart is produced |
| Handlers.TallBarExample | app.py:145 | at 150 cm and 100 kg the result is grade III and the axis top is BMI + 10 |

## Left out

- The page layout, the CSS and the widget declarations (app.py:4-63) are presentation built from framework calls.
- The `progresso` handler (app.py:70-77) only steps a progress bar with `time.sleep` pauses. It then returns a sentence for the page that includes the stripped name. It has no logic beyond that.
- The gender input is read (app.py:84) but never used, so it is not a parameter of the model.
- Drawing is left out: the figure, the colours, the value annotations above the bars, the title, the axis label and `set_xlim`. Only the numbers given to the plotting library are modelled (the bars and the y range).
- Floating-point rounding of the division is left out. So are the `:.2f` and `:.1f` formatting of the result sentence and of the bar annotations. The model computes with exact reals.
- Float overflow and underflow of the square are left out. A non-zero height passes the `== 0` checks. But for a height below about 1e-160 cm, `altura_m ** 2` (app.py:96, 122) underflows to 0.0, and the division then raises ZeroDivisionError. For a height above about 1e156 cm, `** 2` raises OverflowError. The division itself can also overflow. For example, 350 kg at 1e-151 cm gives a square of 1e-306, and 350 / 1e-306 is `inf`, which Python returns without raising. The result handler then reports `inf` as obesity grade III. The chart handler raises at `set_ylim` (app.py:145), because the plotting library rejects an infinite axis limit, so on these inputs a result appears and no chart does. The exact-real model has none of these failures after validation passes, and `Handlers.HandlersAgree` holds only over exact reals.
- The widgets' `min`/`max` (app.py:49-50) are hints to the browser. Nothing enforces them on the value the code receives. The weight widget even starts at 0, below its own minimum of 1.
- A numeric input left empty reaches the code as `None`. That value passes the `== 0` checks and fails at the division. The model treats the inputs as reals, so it does not capture this crash.
