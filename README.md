# VitalIA triage dashboard — a Dafny model

VitalIA is a single-page clinical triage dashboard. A form collects a
patient's age, glucose, body-mass index (BMI), blood pressure, gender and
comorbidity. `runDiagnostics` asks a predictor for a base risk fraction,
rounds it to a percentage, adds a fixed penalty for the comorbidity, caps the
result at 99 and classifies it through an ordered chain of rules. The result
is shown with a recommendation and a colour, and a record of the run is
prepended to an in-memory patient history. The statistics view derives
gender counts, per-comorbidity counts, BMI buckets and the number of critical
cases from that history, and a four-line status log reports progress.

This project models that logic, all of it in `app/page.tsx`:

- `scoring.dfy` (module `Scoring`): the penalty table, the cap, and the ordered
  classification. `Assess` is the specification function. Its contract
  states the score bounds, the chronic-condition floor, each level's exact
  condition, and the colour and recommendation of each level. `Score` is
  the source's step-by-step code on mutable locals, proved equal to `Assess`.
- `status_log.dfy` (module `StatusLog`): `addLog` as a function on the log.
  It is proved to be a first-in first-out window of four lines.
- `patients.dfy` (module `Patients`): the patient record, the five seed
  records, how a run builds its record, and `Scored`. `Scored` is what every
  record built by the scorer satisfies.
- `analytics.dfy` (module `Analytics`): the statistics view's aggregates.
  The per-comorbidity count is the source's dictionary-filling loop.
- `dashboard.dfy` (module `Dashboard`): the component's state as class
  `VitalIA`, with one method per handler. `runDiagnostics` is split at its
  `await`, so the `processing` state can be seen from outside. The class
  invariant ties the predictor flag to the state and the result to `done`.
  It bounds the log, and it keeps every record added by a run consistent
  with the scorer.
- `decimal.dfy` (module `Decimal`): decimal printing of naturals, used for
  the penalty message and the record id.

Behaviour of the code worth knowing, each stated as a proved fact:

- The score is capped only from above (line 117). With `Ninguna` a negative
  base stays negative, and an untrained dense unit can produce one. See
  `Scoring.NoLowerClamp`.
- The chronic floor tests `< 45` (line 125) and the moderate level tests
  `> 45` (line 136). A comorbidity whose capped score is exactly 45 therefore
  ends in `BAJO PESO` or `SALUDABLE`. See `Scoring.ChronicBoundary` and
  `Scoring.Examples`.
- A condition the switch does not list gets penalty 0 (lines 106-112), and
  so does `Penalty`.
- The seed record PT-1004 (asthma, risk 12, `SALUDABLE`) could not have been
  produced by the scorer on any base. `Patients.SeedRecords` proves it. The
  class invariant therefore requires `Scored` only of the records that runs
  add; the seed records are still labelled consistently with their risk, so
  the critical count is right on every reachable history
  (`Dashboard.HistoryCriticalCases`).

## Model

| member | source | states |
|---|---|---|
| `Scoring.JsRound` | app/page.tsx:102 | `Math.round` gives an integer within one half of its argument, halves going up |
| `Scoring.Penalty` | app/page.tsx:105-112 | the penalty lies in [0, 40] and is positive exactly for the five listed comorbidities |
| `Scoring.PenaltyTable` | app/page.tsx:106-112 | the exact table: diabetes 35, hypertension 30, arrhythmia 40, obesity 20, asthma 10; `Ninguna` and any other string 0 |
| `Scoring.Capped` | app/page.tsx:113-117 | the pre-classification percentage is the smaller of base + penalty and 99 |
| `Scoring.Assess` | app/page.tsx:102-148 | score ≤ 99 and never below the capped percentage; with a comorbidity ≥ 45; `MODERADO (CRÓNICO)` exactly when a comorbidity meets a capped score under 45, then score 45; `CRÍTICO` iff score > 75; `MODERADO` iff 45 < score ≤ 75; `BAJO PESO`/`SALUDABLE` only at score ≤ 45, split by BMI < 18.5; never the placeholder `BAJO`; colour and recommendation fixed by the level |
| `Scoring.Score` | app/page.tsx:96-148 | the imperative rounding, penalty, cap and if/else chain compute `Assess` of the rounded base and return the penalty |
| `Scoring.ScoreMonotone` | app/page.tsx:113-130 | a higher base never gives a lower final score |
| `Scoring.NoLowerClamp` | app/page.tsx:102-117 | without a comorbidity a negative base is reported unchanged |
| `Scoring.ChronicBoundary` | app/page.tsx:125-148 | with a comorbidity and a capped score of exactly 45, the level is `BAJO PESO` or `SALUDABLE` according to BMI |
| `Scoring.Examples` | app/page.tsx:102-148 | concrete runs: asthma on base 0 is floored to 45; asthma on base 35 is `SALUDABLE`; diabetes on base 50 is `CRÍTICO` at 85; diabetes on base 70 hits the cap |
| `StatusLog.LastN` | app/page.tsx:77 | for n ≥ 1, `slice(-n)` keeps min(n, length) elements |
| `StatusLog.AppendLog` | app/page.tsx:77 | after `addLog(msg)` the log has min(old length, 3) + 1 ≤ 4 lines; the last is `"> " + msg`; the others are the old log's last lines in order |
| `StatusLog.LogKeepsLastFour` | app/page.tsx:77 | any series of `addLog` calls leaves the last four lines of old log followed by the new entries (a FIFO of capacity four) |
| `Patients.NewPatientScored` | app/page.tsx:151-157 | a run's record copies the inputs, carries the computed score and level, and is consistent with the scorer (`Scored`) |
| `Patients.NewPatient` | app/page.tsx:151-157 | the stored record gives back the form values it was built from, with the id, the date, and the diagnosis's score and level |
| `Patients.SeedRecords` | app/page.tsx:36-42 | seed record PT-1004 is the scorer's output on no base; the other four are its outputs on the bases 15, 60, 35 and 38 |
| `Analytics.CountWhere` | app/page.tsx:182 | a filter's count is at most the history's length; it equals the length iff every record passes, and is 0 iff none does |
| `Analytics.CountDisjoint` | app/page.tsx:190-195 | two filters that never both hold count together what their union counts |
| `Analytics.CountAgree` | app/page.tsx:199 | filters that agree on every record count the same |
| `Analytics.GenderData` | app/page.tsx:181-184 | men plus women never exceed the history, and equal it iff every record is `Masculino` or `Femenino` |
| `Analytics.ImcBucketsPartition` | app/page.tsx:191-194 | every BMI falls in exactly one of the four buckets |
| `Analytics.ImcDistribution` | app/page.tsx:190-195 | the four bucket counts sum to the history's length |
| `Analytics.CriticalCases` | app/page.tsx:199 | the critical count is at most the history's length, and 0 iff no record is `CRÍTICO` |
| `Analytics.CriticalMeansHighRisk` | app/page.tsx:199 | on records labelled `CRÍTICO` exactly when their risk exceeds 75, the critical cases are exactly the records with risk above 75 |
| `Analytics.FirstSeenKeys` | app/page.tsx:187-188 | the dictionary's keys are distinct and are exactly the conditions with a positive count |
| `Analytics.FirstSeenCovers` | app/page.tsx:187 | every record's condition becomes a key |
| `Analytics.ComorbidityTotal` | app/page.tsx:185-189 | the per-comorbidity counts sum to the history's length |
| `Analytics.ComorbidityData` | app/page.tsx:185-189 | the dictionary-filling loop yields one chart row per condition in first-seen order, each with its number of records |
| `Analytics.ComorbidityChart` | app/page.tsx:185-189 | that chart names each condition once, each with at least one record; every record's condition is listed; the counts sum to the history's length |
| `Decimal.NatToString` | app/page.tsx:114 | a natural prints as digits only, with no leading zero |
| `Decimal.DecimalRoundTrip` | app/page.tsx:114 | reading the printed digits back gives the number |
| `Decimal.FourDigits` | app/page.tsx:152 | numbers from 1000 to 9999 print with four digits |
| `Dashboard.PenaltyMessage` | app/page.tsx:113-114 | the penalty log line is the fixed prefix and `% Riesgo` around decimal digits that read back as the penalty |
| `Dashboard.HistoryCriticalCases` | app/page.tsx:199 | on every reachable history, seed records included, the critical count equals the number of records with risk above 75 |
| `Dashboard.PatientId` | app/page.tsx:152 | a record id is `PT-` and four digits naming a number in [1000, 9999] |
| `Dashboard.VitalIA.constructor` | app/page.tsx:45-56 | initial state: booting, no predictor, empty log, no result, the seed history, the default form |
| `Dashboard.VitalIA.AddLog` | app/page.tsx:77 | the log becomes `AppendLog` of the old log |
| `Dashboard.VitalIA.Mount` | app/page.tsx:59-60 | mounting logs the kernel banner |
| `Dashboard.VitalIA.Boot` | app/page.tsx:61-74 | loaded or fallback, a predictor is installed and the state is `ready`; the matching message is logged |
| `Dashboard.VitalIA.SetInputs` | app/page.tsx:235-254 | a form handler replaces the form's values and nothing else |
| `Dashboard.VitalIA.StartDiagnostics` | app/page.tsx:80-84 | without a predictor nothing changes; otherwise the run captures the form's values, the state is `processing`, the result is cleared and the start message is logged |
| `Dashboard.VitalIA.FinishDiagnostics` | app/page.tsx:86-168 | the result is `Assess` of the form values captured at the start, so edits made during the wait do not reach the run; the history gains exactly one record at its head, with the computed score and level and those values; the tail is the old history; the penalty is logged when positive; the state is `done` |
| `Dashboard.VitalIA.RunDiagnostics` | app/page.tsx:80-169 | the whole run: no change without a predictor; otherwise result, new head record, `done`, and the run's messages appended through `addLog` |

## Left out

- Loading the TensorFlow.js model and `predict` (lines 64-71, 89-100) are
  foreign calls on floating-point tensors. The predictor's output, or the
  `Math.random() * 0.5` fallback, is the `rawScore` parameter. Whether the
  artifact was found is the `artifactFound` parameter.
- `parseFloat` of the form's strings, and `NaN` for empty fields
  (lines 90-93, 120, 191-194), are not modelled. The biomarkers are
  already-parsed `real`s, so every BMI is numeric. The form's initial empty
  strings are modelled as 0.
- Floating-point rounding is not modelled. `rawScore * 100` and the BMI
  comparisons are computed on exact reals.
- The radar chart's normalisation (lines 160-165) and the average age
  (line 198) are display arithmetic on floats.
- The `setTimeout` delays (lines 74, 86) are not modelled. The run's
  `await` is modelled by splitting it into `StartDiagnostics` and
  `FinishDiagnostics`.
- The record id's random draw is a parameter (line 152). The locale date
  strings are a parameter too (lines 153, 173).
- The PDF export (lines 171-178) is a foreign library call.
- The run button's disabling while processing or while age is empty
  (line 259) is not modelled. The active tab (line 45) and all rendering
  (lines 203-395) are UI too.
- React state setters are modelled as immediate assignments. The model does
  not cover batching or re-rendering.
- `Analytics.ComorbidityData` models `counts` as a map that keeps keys in
  insertion order. It does not capture two ways a plain JavaScript object
  differs. First, JavaScript lists integer-like keys first. Second, the
  object inherits `Object.prototype`: for a name such as `constructor` or
  `toString`, `(counts[k] || 0) + 1` builds a string, and `__proto__` never
  becomes a key. Condition names come from the form's selector and the seed
  records, and none of them is integer-like or an inherited property name.
- `next.config.ts` is build configuration with no logic.
