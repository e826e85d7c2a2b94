# Sovereignty scorer and evaluation form

This project models the two pieces of the digital-sovereignty evaluation tool
that compute something:

- **The scorer** (`backend/services/scoringService.js`). It has three static
  criteria tables: Table 1 (technology), Table 2 (legal and organisational)
  and the SLC table (software, licensing and compliance). `calculateScore`
  walks each table in order. For every criterion it looks up the user's
  answer, adds the weighted score of the chosen option to the section score,
  adds the criterion's maximum to the section maximum, and files a details
  entry for each answered criterion. It then adds up the three sections,
  computes the overall percentage and rates it with `getSovereigntyRating`.
  `getCriteriaDefinitions` hands the three tables to the front end.
- **The evaluation form** (`frontend/app.js`). The form state is held in one
  object:
  - the answers;
  - the mitigation flags and their notes;
  - the sovereignty characteristics marked SHALL or SHOULD.

  The operations on it are `toggleSC`, the queries `isSCSelected` and
  `getSelectedSCCount`, `getRatingClass`, the merge step of `importData`,
  and `resetForm`.

Layout:

| file | module | contents |
|---|---|---|
| `wrappers.dfy` | `Wrappers` | `Option`, used for JavaScript properties that may be missing |
| `decimal.dfy` | `Decimal` | decimal text: reading the typed `slc5` number; printing the `"<n> months"` label |
| `catalog.dfy` | `Catalog` | the three tables as constants; their well-formedness; `getCriteriaDefinitions` |
| `rating.dfy` | `Rating` | `getSovereigntyRating` and a reference band function (how many of the thresholds 40/60/75/90 are reached) |
| `scoring.dfy` | `Scoring` | `calculateScore`; its specification functions and the lemmas about them |
| `scoring_cases.dfy` | `ScoringCases` | the reports of particular requests: the empty request, and a single white-list `slc2` answer |
| `form.dfy` | `Form` | the form data; the `EvaluationForm` class with `ToggleSC`, `ImportData` and `ResetForm` |

How `calculateScore` is modelled:

- The method `Scoring.CalculateScore` runs one loop method (`Scoring.WalkTable`) per table.
  - Its loop invariant ties the running score, maximum and details to the specification function `Scoring.TallyOf` on the walked prefix.
  - The loop body is `Scoring.ScoreCriterion`, written branch for branch as the source's loop bodies.
- The two loop kinds differ only in how they count the maximum:
  - Tables 1 and 2 add 3 points per unit of weight, whatever was answered.
  - The SLC table adds an option criterion's best option, answered or not, and the bound of the numeric `slc5` only when a value was typed.

  In the model, the table rule `TableRule` selects between the two.
- The form's operations change the fields of `Form.EvaluationForm` in place.
  Each is specified by a pure function on `Form.FormData` (`Form.Toggled`, `Form.MergeImport`, `Form.ResetFormData`).

No code here implements a characteristic-level aggregation: there is no
combining of criteria into SHALL/SHOULD characteristics, no mitigation
weighting and no multiplicative roll-up. The route passes only `criteria` to
`calculateScore` (`backend/routes/scoring.js:8`, `backend/routes/scoring.js:14`),
and the scorer never reads `mitigations` or `selectedSC`. The model is the
sum-based scorer the code implements.

## Model

| member | source | states |
|---|---|---|
| Catalog.Lookup | backend/services/scoringService.js:267 | `criterion.options[userSelection]`: a found option is one of the criterion's options and carries the asked key; nothing is found exactly when no option has that key |
| Catalog.MaxChoiceScore | backend/services/scoringService.js:318 | `Math.max` over the option scores: every option scores at most the result, and some option scores exactly it |
| Catalog.TechnicalWellFormed | backend/services/scoringService.js:8-54 | Table 1 has distinct criterion keys. Every criterion has at least one option, under distinct keys, none scoring below 0 and none above 3 |
| Catalog.LegalWellFormed | backend/services/scoringService.js:57-103 | The same for Table 2 |
| Catalog.SlcWellFormed | backend/services/scoringService.js:106-245 | The SLC table has distinct keys. The numeric criterion has a range starting at 0 or above. Every option criterion has options under distinct keys, none scoring below 0 |
| Catalog.Slc25LowestScoresZero | backend/services/scoringService.js:235-244 | The lowest option of `slc25` (`blackbox_opaque`) scores exactly 0, and its other three options score more |
| Catalog.CriteriaDefinitions | backend/services/scoringService.js:371-377 | The definitions handed to the front end are the three tables: 5, 5 and 14 criteria, each table well formed, Tables 1 and 2 worth at most 3 points per criterion |
| Decimal.ParseInt | backend/services/scoringService.js:300 | `parseFloat` on an integer literal: the value is non-negative without a minus sign and non-positive with one |
| Decimal.NatToString | backend/services/scoringService.js:305 | The text of a non-negative integer in a template literal: a non-empty digit string without a leading zero |
| Decimal.ParseNatToString | backend/services/scoringService.js:300-305 | Printing a clamped value and reading it back gives the value: the `"<n> months"` label names the score's number |
| Rating.SovereigntyRating | backend/services/scoringService.js:360-366 | `getSovereigntyRating`, the if-chain from the top band down. It carries no contract of its own; `Rating.SovereigntyRatingBands` proves it equal to the reference band's label, and `Rating.SovereigntyRatingMonotone` proves it monotone |
| Rating.SovereigntyRatingBands | backend/services/scoringService.js:360-366 | The top-down if-chain equals an independent reference: the label of the band one step up per threshold (40, 60, 75, 90) reached. So ≥90 is Excellent, ≥75 High, ≥60 Moderate, ≥40 Low, and anything else Very Low |
| Rating.BandMonotone | backend/services/scoringService.js:360-366 | A higher percentage never gets a lower band |
| Rating.SovereigntyRatingMonotone | backend/services/scoringService.js:360-366 | The ratings of p ≤ q are the labels of two bands, the band of q ranking at least as high as the band of p |
| Scoring.Clamp | backend/services/scoringService.js:300 | `Math.min(Math.max(v, lo), hi)`: the result lies in [lo, hi]. It is v when v is inside the range, lo below it and hi above it |
| Scoring.Contribute | backend/services/scoringService.js:266-324 | What one criterion adds to its table (one loop iteration). It carries no contract of its own; `Scoring.ContributionBounds` and `Scoring.UnansweredContribution` state what it adds. `Scoring.ScoreCriterion` is proved to add exactly this |
| Scoring.TallyOf | backend/services/scoringService.js:265-325 | A table's figures after walking its criteria in order. It carries no contract of its own; `Scoring.WalkTable`'s loop is proved to compute it, and `Scoring.TallyBounds`, `Scoring.TallyDetailKeys`, `Scoring.TallyDetailEntries`, `Scoring.ThreePointMax` and `Scoring.SlcMaxSplit` state its properties |
| Scoring.ScoreCriterion | backend/services/scoringService.js:296-324 | One loop body: the running figures after a criterion are the figures before plus that criterion's contribution, its details entry filed under its key. The Tables 1 and 2 body at lines 266-276 is the same method under the three-point rule |
| Scoring.WalkTable | backend/services/scoringService.js:265-325 | One table's loop: the score, maximum and details are those of the whole table's tally. 0 ≤ score ≤ maximum. The details hold exactly the keys of the answered criteria |
| Scoring.NumericContributionBounds | backend/services/scoringService.js:299-308 | A typed `slc5` value is clamped, then weighted. Its score lies between 0 and its weighted bound. It gets a details entry exactly when a value was typed, with the criterion's name and the same score |
| Scoring.OptionContributionBounds | backend/services/scoringService.js:309-323 | An option criterion's score lies between 0 and what it adds to the maximum. It gets a details entry exactly when its answer names one of its options |
| Scoring.ContributionBounds | backend/services/scoringService.js:266-324 | Every criterion adds a score between 0 and its own maximum, and a details entry, bearing its name and score, exactly when it is answered |
| Scoring.UnansweredContribution | backend/services/scoringService.js:309-323 | A missing, empty or unrecognised answer adds 0 to the score and no details entry. An option criterion still adds its best option (3 points in Tables 1 and 2) to the maximum; an unanswered `slc5` adds nothing |
| Scoring.TallyBounds | backend/services/scoringService.js:265-325 | For each table, 0 ≤ section score ≤ section maximum |
| Scoring.TallyDetailKeys | backend/services/scoringService.js:266-274 | A section's details hold exactly the answered criteria |
| Scoring.TallyDetailEntries | backend/services/scoringService.js:270-274 | Each answered criterion's details entry is its own name, the caption of its answer and its weighted score |
| Scoring.ThreePointMax | backend/services/scoringService.js:276 | Under the three-point rule the maximum is 3 times the weight sum, whatever was answered |
| Scoring.SlcMaxSplit | backend/services/scoringService.js:295-325 | The SLC maximum is the weighted best options of all option criteria plus the weighted bounds of the numeric criteria that were given a value |
| Scoring.UnansweredSameAsMissing | backend/services/scoringService.js:266-267 | An empty answer, or one that names no option, gives the same section as leaving the key out |
| Scoring.NothingAnswered | backend/services/scoringService.js:265-325 | With no criterion answered, a section scores 0 and has no details |
| Scoring.OnlyAnswered | backend/services/scoringService.js:265-325 | With only criterion j answered, a section's score is criterion j's score |
| Scoring.SlcBestSum | backend/services/scoringService.js:106-245 | The SLC option criteria are worth 65 weighted points at best |
| Scoring.CatalogShape | backend/services/scoringService.js:8-245 | Tables 1 and 2 have 5 option criteria each, all of weight 1. In the SLC table, `slc2` is at index 1 and `slc5`, the one numeric criterion, at index 3 |
| Scoring.TechnicalTable | backend/services/scoringService.js:265-277 | Table 1 is walked for every request, and its maximum is always 15 |
| Scoring.LegalTable | backend/services/scoringService.js:280-292 | Table 2 is walked for every request, and its maximum is always 15 |
| Scoring.SlcTable | backend/services/scoringService.js:295-325 | The SLC maximum is 65, plus 12 exactly when `slc5` was given a value |
| Scoring.Slc5Clamped | backend/services/scoringService.js:299-308 | A typed `slc5` scores its value clamped into [0, 12] and adds 12 to the maximum. Its details entry shows `"<n> months"`, where n reads back as the clamped value |
| Scoring.Slc5Empty | backend/services/scoringService.js:299-324 | A missing or empty `slc5` adds nothing to the score, nothing to the maximum and no details entry |
| Scoring.Round | backend/services/scoringService.js:334 | `Math.round(y)` lies in (y − 0.5, y + 0.5] |
| Scoring.Percentage | backend/services/scoringService.js:329 | `max > 0 ? score / max * 100 : 0`: the percentage times the maximum is 100 times the score; it is 0 for an empty maximum; it lies in [0, 100] when 0 ≤ score ≤ max |
| Scoring.RoundTenth | backend/services/scoringService.js:334 | `Math.round(y * 10) / 10` is a whole number of tenths in (y − 0.05, y + 0.05], and stays in [0, 100] when y does |
| Scoring.SectionBounds | backend/services/scoringService.js:336-352 | Each reported section has 0 ≤ score ≤ maximum and a percentage in [0, 100] |
| Scoring.ScoreSection | backend/services/scoringService.js:336-352 | A section computed as the source does (the walk, then `Math.round(score / max * 1000) / 10`) is the section of the table's tally with its percentage to one decimal |
| Scoring.Summarise | backend/services/scoringService.js:327-354 | The totals are the sums of the section figures. The shown percentage is rounded to one decimal, and the rating is taken from the unrounded percentage |
| Scoring.ReportOf | backend/services/scoringService.js:252-355 | The report of a request whose `slc5` is empty or an integer: the three walked sections, summarised. It carries no contract of its own; `Scoring.CalculateScore` is proved to return it, and `Scoring.ReportBounds`, `Scoring.ReportRatingMatchesShownPercentage`, `ScoringCases.EmptyRequest` and `ScoringCases.WhiteListCountry` state its properties |
| Scoring.CalculateScore | backend/services/scoringService.js:252-355 | The method's report is the report of the request: the three walked sections, summarised. It reads nothing but `criteria` |
| Scoring.ReportFromBounds | backend/services/scoringService.js:327-353 | Sections with 0 ≤ score ≤ maximum give 0 ≤ total ≤ maximum, a percentage in [0, 100] and the rating of the unrounded percentage's band |
| Scoring.ReportBounds | backend/services/scoringService.js:252-355 | For every request: each section and the total score lie between 0 and their maximum; Tables 1 and 2 have maximum 15 each; the maximum is 95, or 107 when `slc5` was given a value; the percentage lies in [0, 100]; the rating is the band of the unrounded percentage |
| Scoring.RoundTenthReaches | backend/services/scoringService.js:334 | A percentage rounded to one decimal reaches a whole threshold n exactly when the unrounded percentage is ≥ n − 0.05 |
| Scoring.RoundingCanCrossABand | backend/services/scoringService.js:329-353 | For an arbitrary percentage, rounding can cross a band: 89.96 is shown as 90.0, yet rated High, while 90.0 is rated Excellent |
| Scoring.FractionalAnswerCrossesABand | backend/services/scoringService.js:300-353 | With a fractional `slc5`, which the source accepts, rounding can cross a band: every option at its best plus `slc5 = "1.25"` is 96.25 of 107, shown as 90.0 but rated High |
| Scoring.NoPercentageJustBelow | backend/services/scoringService.js:329 | No whole score out of 95 or 107 falls within 0.05 below a threshold |
| Scoring.RoundedRatingAgrees | backend/services/scoringService.js:329-353 | For maxima 95 and 107, rating the rounded percentage gives the same label as rating the unrounded one |
| Scoring.ReportFromRatingAgrees | backend/services/scoringService.js:327-353 | A report whose maximum is 95 or 107 is rated as its shown percentage would be |
| Scoring.ReportRatingMatchesShownPercentage | backend/services/scoringService.js:252-355 | For every request whose `slc5` is empty or an integer, the rating (taken from the unrounded percentage) is also the rating of the percentage the report shows |
| ScoringCases.SingleAnswer | backend/services/scoringService.js:265-325 | A request answering only criterion j of a table: the section score is that criterion's score, and the details hold that one entry |
| ScoringCases.Tables12Unanswered | backend/services/scoringService.js:265-292 | A request that answers only SLC criteria scores 0 out of 15, with no details, in both Table 1 and Table 2 |
| ScoringCases.SlcUnanswered | backend/services/scoringService.js:295-325 | With every answer empty, the SLC section is 0 out of 65 with no details |
| ScoringCases.WhiteListContribution | backend/services/scoringService.js:309-319 | `slc2 = 'whitelist'` adds score 10 and maximum 10, with details `{SLC2: Software Country of Origin, White-list Country, 10}` |
| ScoringCases.SlcWhiteList | backend/services/scoringService.js:116-124 | Answering only `slc2 = 'whitelist'` gives the SLC section 10 out of 65, with that one details entry |
| ScoringCases.EmptyRequest | backend/services/scoringService.js:252-355 | A request whose answers are all empty, the empty request among them, is reported as 0 of 95, 0.0 per cent, every section empty, "Very Low Sovereignty" |
| ScoringCases.WhiteListCountry | backend/services/scoringService.js:252-355 | Answering only `slc2 = 'whitelist'` is reported as 10 of 95, at 10.5 per cent, and the SLC section is 10 of 65 (15.4 per cent) with one entry. The rating is "Very Low Sovereignty" |
| Form.InitialFormData | frontend/app.js:4-63 | The form as `data()` builds it: blank name and description; every SLC key with an empty answer, its mitigation flag off and a blank note; no characteristic marked |
| Form.BlankAnswers | frontend/app.js:9-24 | The initial answers: every SLC key, each with the empty answer |
| Form.NoMitigations | frontend/app.js:26-41 | The initial mitigation flags: every SLC key, each flag off |
| Form.Toggled | frontend/app.js:186-194 | `toggleSC(k, t)`: afterwards k is marked t exactly when it was not before. When k held t it is removed; otherwise it holds t, overwriting another level. Every other key is unchanged |
| Form.ToggleTwiceRestores | frontend/app.js:187-193 | Starting with k unmarked, toggling k twice with the same level restores the selection |
| Form.ToggleCount | frontend/app.js:186-202 | A toggle changes `getSelectedSCCount` by +1 when k was unmarked, by −1 when k held t, and by 0 when k held the other level |
| Form.Overlay | frontend/app.js:250 | `{ ...base, ...top }`: the keys of both maps; the value from top where top has the key, and from base elsewhere |
| Form.OverlayIdempotent | frontend/app.js:250-256 | Overlaying the same map a second time changes nothing |
| Form.MergeImport | frontend/app.js:243-256 | The import merge. A file without criteria is rejected. Otherwise: the name and description come from the file (blank when absent); the file's criteria override the form's, and unmentioned keys keep their values; mitigations and notes are merged only when the file has them; the selection is unchanged |
| Form.ImportTwice | frontend/app.js:243-256 | Importing the same file twice leaves the form as importing it once does |
| Form.ResetAsWrittenLosesNotes | frontend/app.js:144-184 | The form `resetForm` writes as written has no mitigation notes and an empty selection. The initial form has a blank note per SLC key, so the two differ |
| Form.ResetFormDataAsWritten | frontend/app.js:144-184 | The object `resetForm` writes, as written: the initial form without its mitigation notes |
| Form.ResetFormData | frontend/app.js:144-184 | The reset as intended gives the initial form: blank answers, blank notes, no characteristic marked |
| Form.RatingClass | frontend/app.js:204-210 | `getRatingClass`: the CSS class of the reference band of the percentage |
| Form.RatingClassMatchesRating | frontend/app.js:204-210 | `getRatingClass` colours a percentage by the same band, over the same thresholds, as the scorer's rating |
| Form.EvaluationForm.constructor | frontend/app.js:4-86 | The component starts with the initial form, no results and no error |
| Form.EvaluationForm.ToggleSC | frontend/app.js:186-194 | Only the selection changes, to `Toggled` of the old selection. `isSCSelected(k, t)` flips, and the count moves by +1, −1 or 0 as above |
| Form.EvaluationForm.IsSCSelected | frontend/app.js:196-198 | `isSCSelected(k, t)`: true exactly when k is in the selection with level t, so true for at most one level of k |
| Form.EvaluationForm.SelectedSCCount | frontend/app.js:200-202 | `getSelectedSCCount`: the number of keys in the selection; 0 exactly when the selection is empty |
| Form.EvaluationForm.ImportData | frontend/app.js:233-269 | It succeeds exactly when the file has criteria. On success the form becomes the merge of the old form and the file. On failure the form is left unchanged and the error message is set |
| Form.EvaluationForm.ResetForm | frontend/app.js:144-184 | The form becomes the freshly initialised form, with results and error cleared, so `getSelectedSCCount` is 0 |

## Left out

- Characteristic-level SHALL/SHOULD aggregation, mitigation weighting, normalised scores and a multiplicative roll-up: no code here implements them, and the scorer never reads `mitigations` or `selectedSC`.
- Scoring.CalculateScore: requires a typed `slc5` to be a decimal integer literal. `parseFloat` of fractions, of text with trailing characters, and of non-numeric text (`NaN`, whose comparisons are all false) is not modelled: `NaN` is a floating-point artifact.
- Scoring.ReportRatingMatchesShownPercentage: holds only for an empty or integer `slc5`. The source also reads fractions. Every option at its best plus `slc5 = "1.25"` scores 96.25 of 107, which is 89.95… per cent: it is shown as 90.0 but rated "High Sovereignty". `Scoring.FractionalAnswerCrossesABand` states this case.
- Scoring.RoundTenth: computed on exact reals; the binary floating-point error of `Math.round(x * 10) / 10` (as for 1.005) is not modelled.
- Option keys inherited from the JavaScript object prototype (`toString`, `constructor`) look up a function and yield a `NaN` score; the model treats them as unrecognised answers.
- Request values that are not strings (numbers, booleans, objects in the JSON body) are not modelled: `criteria` is a map from strings to strings.
- The order of keys in the details objects (JavaScript insertion order) is not modelled: details are finite maps.
- The `description` field of `slc5` (`backend/services/scoringService.js:142`), which `getCriteriaDefinitions` hands to the front end as display text: the model's criteria carry no description, since nothing is computed from it.
- Integer widths: every figure is a small integer (at most 107), exact in a double; the model uses unbounded integers.
- `backend/database/*.js`, `init-mongo.js`, `backend/server.js`, `backend/routes/scoring.js` and `frontend/thresholds/thresholds.js`: persistence, HTTP wiring and loading the threshold configuration, which the scorer never consumes; none of them is part of this model.
- The `sovereigntyCharacteristics` display table, `loading`, `results` as shown on the page, and the other view state of `frontend/app.js`: display only.
- The `fetch` call that submits the form, `exportData` (Blob download), `exportToPDF` (html2canvas and jsPDF) and the `alert` and scrolling side effects: I/O.
- Form.EvaluationForm.ImportData: takes the already parsed file. The FileReader, `JSON.parse` and its error message (`"Error importing file: " +` the parser's message), and clearing the file input are left out. A field that is missing or falsy is `None`. Imported values of other JSON types are not modelled.
- Form.EvaluationForm.ResetForm: models the evidently intended reset, which restores the mitigation notes (see Findings). The code as written is modelled by `Form.ResetFormDataAsWritten`.

## Findings

| source | as written | input that shows it | evidently intended | confidence | as-written member | corrected member |
|---|---|---|---|---|---|---|
| frontend/app.js:144-184 | `resetForm` rebuilds `formData` with answers, mitigation flags and an empty selection, but without the `mitigationDescriptions` object that the initial form (lines 43-59) holds. | Call `resetForm()`, then `exportData()` or edit a mitigation note. The form now has no `mitigationDescriptions`: the export omits the notes, and the bindings to `formData.mitigationDescriptions[key]` read from an undefined object. | Reset to the initial form, with a blank note for every SLC key. | medium; not executed | Form.ResetAsWrittenLosesNotes | Form.EvaluationForm.ResetForm |
