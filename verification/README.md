# Lunch nutrient analysis — a verified model

This project models the analysis core of a school-lunch nutrition page (`app.py`).
A tray photo is classified into food labels. The labels are folded into a set of
detected foods, and the user confirms or corrects the list. The confirmed foods are
then looked up in a fixed nutrient catalog and their nutrients are summed. Each
nutrient of the chosen daily-intake profile is compared with its lunch target, which
is 35 % of the daily value. The page shows, per nutrient, the actual value, the target,
the percentage and a progress value clamped to 100. It ends with one of two verdicts:
every component met, or a warning that names the short components.

Modules:

- `Text` (`text.dfy`): ASCII lower-casing, the first space-delimited token
  (`split(' ')[0]`), and joining with `", "` together with its inverse.
- `Tables` (`tables.dfy`): the food catalog in its column layout, the five daily
  profiles, the lunch share `0.35`, and the default profile.
- `Detection` (`detection.dfy`): the nested loop that builds the set of detected
  labels.
- `Aggregation` (`aggregation.dfy`): the confirmed list becomes a set. The catalog
  rows whose identifier is in the set are selected and each nutrient column is summed.
- `Fulfilment` (`fulfilment.dfy`): the per-nutrient evaluation loop, the progress
  clamp and the list of short components.
- `Analysis` (`analysis.dfy`): the whole analysis of a confirmed list, including the
  empty list that is not analysed, and the verdict.

Values are exact reals. Python's `int()` on the clamped percentage rounds toward zero
and is written out as `Fulfilment.Truncate`.

## Model

| member | source | states |
|---|---|---|
| Tables.FoodCatalogValid | app.py:48-70 | every catalog column has one value per food, food identifiers and nutrient names are unique, and no value is negative |
| Tables.FoodIdsDistinct | app.py:49-54 | the 18 `nama_makanan` identifiers are pairwise different |
| Tables.FoodCatalog | app.py:48-70 | `data_gizi` has 18 foods and 5 nutrient columns, each with one value per food; FoodCatalogColumns, FoodCatalogValid and RiceAndChickenRows give its contents |
| Tables.FoodCatalogColumns | app.py:48-70 | the identifier column and the five nutrient columns, in declaration order, each with its own name and values |
| Tables.ProfilesMatchCatalog | app.py:28-46 | profile labels are unique; every profile declares exactly the catalog's five nutrients in the catalog's order with positive daily amounts; the lunch share lies in (0, 1] |
| Tables.Profiles | app.py:28-44 | `akg_profiles` has five profiles of five nutrients each; ProfilesMatchCatalog gives their names, order and positive amounts |
| Tables.ProfileLabels | app.py:93 | the selector offers one label per profile, in declaration order |
| Tables.DefaultProfileIndex | app.py:94 | the initial selection is a valid index and names the adult-man profile "Laki-laki Dewasa (19-29)" |
| Tables.FindProfile | app.py:98 | a profile is found exactly when some profile carries the chosen label, and the one found carries it |
| Tables.FindConfigured | app.py:91-98 | every label the selector offers finds its own profile |
| Tables.Catalog.Nutrients | app.py:55-69 | the nutrient names are the column names, one per column, in column order |
| Tables.IntakeNames | app.py:28-44 | a profile's nutrient names follow its declaration order |
| Text.LowerChar | app.py:168 | lower-casing a character yields no upper-case letter, leaves other characters alone and moves A-Z by 32 code points |
| Text.Lower | app.py:168 | `lower()` keeps the length, maps each character on its own and leaves no upper-case letter |
| Text.LowerKeepsSpaces | app.py:168 | a lower-cased string has a space exactly when the original has one |
| Text.FirstToken | app.py:168 | `split(' ')[0]` is a space-free prefix that is either the whole string or ends right before a space |
| Text.FirstTokenOfSpaceFree | app.py:168 | a space-free word followed by anything has that word as the start of its first token |
| Text.Join | app.py:178 | the joined text starts with the first element |
| Text.SplitList | app.py:178 | reading a joined list back always gives at least one element and cuts only at a comma followed by a space |
| Text.OnlyCommaSpaceSeparates | app.py:178 | a space that does not follow a comma does not separate items, so only the `", "` separator round-trips |
| Text.SplitJoin | app.py:178 | splitting `", ".join(xs)` back gives `xs` for space-free, non-empty lists: the warning text carries the whole list |
| Detection.Elements | app.py:118-120 | the labels of one result's boxes, as a set: a label is in it exactly when some box carries it |
| Detection.Labels | app.py:116-120 | the detected-label set holds the labels of every result; LabelsExactly gives both directions |
| Detection.LabelsExactly | app.py:116-120 | a label is detected exactly when some box of some result carries it |
| Detection.LabelsOfConcatenation | app.py:116-120 | the detected set of two batches is the union of each batch's set, so order and repetition do not matter |
| Detection.NoBoxesNoLabels | app.py:116-126 | results without boxes detect nothing |
| Detection.DetectedObjects | app.py:116-120 | the nested loop that adds every box label to an initially empty set computes exactly the detected-label set |
| Aggregation.Matches | app.py:146 | the `isin` mask yields row positions inside the catalog |
| Aggregation.MatchesExactly | app.py:146 | the selected rows are in ascending order, and a row is selected exactly when its identifier is in the food set |
| Aggregation.Totals | app.py:146-147 | for a catalog whose columns have one value per food and distinct names, the totals have exactly the nutrient names as keys; each is the sum of that column over the selected rows |
| Aggregation.Aggregate | app.py:144-147 | the totals of a confirmed list have exactly the catalog's nutrients as keys and are all zero for an empty list; AggregateDependsOnlyOnSet, UnknownIgnored and TotalsAddFood describe the sums |
| Aggregation.Selection | app.py:144 | `set(final_food_list)` holds exactly the list's elements |
| Aggregation.ColumnSum | app.py:147 | a sum over the selected rows of non-negative values is non-negative; ColumnSumPrefix and AddFood describe the sum |
| Aggregation.SelectedTotal | app.py:146-147 | the selected total of a column without negative values is non-negative; SelectedTotalStep, NothingSelected and AddFood give its value |
| Aggregation.ColumnSumPrefix | app.py:147 | a column sum depends only on the rows it reads |
| Aggregation.SelectedTotalStep | app.py:146-147 | the selected total over n+1 rows is the total over n rows plus the last row's value when that row is selected |
| Aggregation.MatchesAgree | app.py:146 | two food sets that agree on every catalog identifier select the same rows |
| Aggregation.UnknownIgnored | app.py:146-147 | identifiers outside the catalog contribute nothing to the totals |
| Aggregation.AddUnknown | app.py:146-147 | adding an unknown identifier leaves the totals unchanged |
| Aggregation.NothingSelected | app.py:147 | the column sum of an empty selection is zero |
| Aggregation.EmptySelection | app.py:147 | with no food selected, every total is zero |
| Aggregation.AddFood | app.py:144-147 | adding a food not yet selected raises the column total by exactly its row value |
| Aggregation.TotalsAddFood | app.py:144-147 | adding a food not yet selected raises every nutrient total by exactly that food's value |
| Aggregation.TotalsNonNegative | app.py:146-147 | a catalog without negative values gives no negative totals |
| Aggregation.AggregateDependsOnlyOnSet | app.py:144-147 | two lists with the same elements give the same totals, whatever their order and repetition |
| Aggregation.NoDoubleCount | app.py:144 | a food listed twice counts once: its totals equal its own catalog row |
| Aggregation.FirstTwoFoods | app.py:146-147 | selecting the first two of distinct foods sums exactly their two rows |
| Aggregation.RiceAndChickenColumn | app.py:49-50 | with the catalog's identifiers, "nasi_putih" and "ayam" select rows 0 and 1 of any column |
| Aggregation.FoodCatalogKeys | app.py:55-69 | the catalog's totals have exactly the five nutrient names as keys |
| Aggregation.FoodCatalogTotals | app.py:48-70 | the catalog's totals have the five nutrient keys, each summing its own column |
| Aggregation.RiceAndChickenRows | app.py:48-70 | rice and chicken sum to 390 kcal, 28 g protein, 15.3 g fat, 32 g carbohydrate and 0.5 g fibre |
| Aggregation.RiceAndChicken | app.py:141-147 | the totals of the list ["nasi_putih", "ayam"] are exactly those five values |
| Fulfilment.Percentage | app.py:162 | with a positive target, percentage times target is 100 times the actual value; otherwise the percentage is 0 |
| Fulfilment.Target | app.py:160 | the lunch target is 35 % (`PORSI_MAKAN_SIANG`) of the daily value, so a positive daily value gives a positive target below it |
| Fulfilment.Actual | app.py:161 | `total_gizi_makanan.get(gizi, 0)`: the total when the nutrient has one, otherwise 0 |
| Fulfilment.Truncate | app.py:165 | `int()` rounds toward zero: the result is within one of its argument, on the side of zero |
| Fulfilment.Progress | app.py:165 | the progress value never exceeds 100; it is exactly 100 from 100 % on; on [0, 100) it is the integer part of the percentage; below 0 it is the percentage rounded toward zero |
| Fulfilment.ShortName | app.py:168 | the short name holds no space and is no longer than the nutrient name |
| Fulfilment.ShortNameOfWord | app.py:168 | "word unit" shortens to the lower-cased word |
| Fulfilment.EnergyShortName | app.py:168 | "Energi (kkal)" is listed as "energi" |
| Fulfilment.Assess | app.py:159-167 | one line per nutrient, with progress at most 100; with a positive daily value the nutrient is short (`Deficient`, `persentase < 100`) exactly when the actual value is below the target; otherwise it reads 0 % and is short; LineValues gives every field's value |
| Fulfilment.Evaluate | app.py:159-165 | one report line per profile nutrient, in profile order; LineValues gives each line's target, actual value, percentage and progress |
| Fulfilment.EvaluateStep | app.py:159-165 | evaluating one more nutrient appends exactly its line |
| Fulfilment.Shortfall | app.py:157-169 | `komponen_kurang` has at most one entry per nutrient and no entry holds a space; ShortfallFollowsProfile and DeficientRowsExactly say which entries, in which order |
| Fulfilment.ShortfallStep | app.py:167-169 | evaluating one more nutrient appends its short name to the shortfall list exactly when it is below 100 % |
| Fulfilment.DeficientRows | app.py:167 | the deficient positions lie inside the profile |
| Fulfilment.EvaluateMeal | app.py:157-169 | the evaluation loop produces exactly the specified report lines and shortfall list |
| Fulfilment.MetIffTargetReached | app.py:162-167 | with a positive target, a nutrient is met exactly when the actual value reaches the target |
| Fulfilment.ExactTargetIsMet | app.py:162-167 | an actual value equal to the target gives exactly 100 %, no shortfall and full progress |
| Fulfilment.DegenerateTarget | app.py:162-167 | a target that is not positive gives 0 %, a shortfall and zero progress, without dividing |
| Fulfilment.LineValues | app.py:160-165 | each line's target is 35 % of the daily value; its actual value is the total, or 0 when the nutrient has no total; its percentage is `Percentage(actual, target)` and its progress `Progress(percentage)` |
| Fulfilment.DeficientRowsExactly | app.py:167 | the deficient positions are ascending and are exactly the lines below 100 % |
| Fulfilment.ShortfallFollowsProfile | app.py:167-169 | the shortfall list has one short name per deficient nutrient, in profile order |
| Fulfilment.AllMetIffNoShortfall | app.py:167-175 | the shortfall list is empty exactly when every nutrient reaches 100 % |
| Fulfilment.ProgressInRange | app.py:162-165 | with non-negative totals and daily values, every progress value lies in 0..100 |
| Fulfilment.AdultEnergyExample | app.py:41-46 | 390 kcal against the adult man's 2650 kcal day: the target is 927.5 kcal, it is not met, and the progress bar shows 42 |
| Analysis.Conclude | app.py:175-179 | the verdict is "fully met" exactly when the shortfall list is empty |
| Analysis.Analyze | app.py:141-184 | there is no analysis exactly when the confirmed list is empty; otherwise there is one line per profile nutrient |
| Analysis.RunAnalysis | app.py:141-184 | the page's analysis, evaluation loop included, computes exactly the specified analysis |
| Analysis.FullyMetIffAllReached | app.py:159-179 | the verdict is "fully met" exactly when every nutrient reaches 100 % |
| Analysis.WarningListsShortfall | app.py:177-179 | the warning text names exactly the short components, in profile order |
| Analysis.SameFoodsSameAnalysis | app.py:144-147 | two confirmed lists with the same foods give the same analysis |
| Analysis.UnknownFoodsOnly | app.py:141-167 | a non-empty list of unknown identifiers is still analysed: every actual value is 0 and every nutrient with a positive target is short |
| Analysis.ConfiguredProgressInRange | app.py:28-70 | with the configured catalog and any configured profile, every progress value lies in 0..100 |
| Analysis.AdultLines | app.py:41-43 | against the adult man's day, the rice-and-chicken totals meet protein only |
| Analysis.OnlySecondMet | app.py:167-169 | when only the second of five nutrients is met, the shortfall list names the other four, in order |
| Analysis.AdultRiceAndChicken | app.py:91-169 | rice and chicken for the default profile leave energy, fat, carbohydrate and fibre short |

## Left out

- The page itself is not part of this model. That covers Streamlit layout, headers, CSS, messages, the spinner, the image display, and the formatting of values to one decimal place.
- Model loading (`YOLO('best.pt')`, its cache and its error path) and inference are outside the model. The classifier's output is a parameter: one sequence of box labels per result.
- The label lookup `model.names[int(box.cls)]` is outside the model; labels arrive already looked up.
- Reading the uploaded image (`Image.open`) is outside the model, as is the branch taken when nothing is uploaded.
- Widget state is outside the model. The profile selector's value and the multiselect's value are parameters. The multiselect's own rule that defaults must be among its options is not modelled. So a detected label outside the catalog is simply an unknown identifier here.
- Text.Lower, Text.LowerChar: model lower-casing for ASCII letters only; Python's `lower()` is Unicode-aware and also lower-cases non-ASCII letters. Every name in the tables is ASCII.
- Floating point is not modelled. The catalog values, sums, targets and percentages are exact reals, so binary rounding (for example of 0.35) is not captured.
- pandas is not modelled. The data frame, boolean mask and `sum(numeric_only=True)` are modelled as a column layout, a list of selected rows and one sum per column.
- Python dictionaries keep insertion order; each profile is modelled as a sequence of intakes in declaration order.
- No configured profile has a zero target, so the fallback to 0 % never applies to the tables here. For any profile that did have a zero target, that nutrient would be counted as short.
