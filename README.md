# Student dropout prediction: the evaluation pipelines in Dafny

This project models the two evaluation pipelines of a student dropout predictor.

The desktop application (`finalapp.py`) works as follows:

- It asks for a number of subjects from 1 to 10.
- It lays out five CIE (continuous internal evaluation) mark entries per subject, subject by subject.
- It rejects a submission whose marks do not parse or fall outside [0, 100].
- It pads the mark list with zeros to 55 marks.
- It averages each group of five marks into a subject average, then averages those.
- It calls an overall average below 40 "Likely to Dropout" and anything else "Safe".
- It appends a line to the log of the logged-in roll number.
- It shows that log as a history, or tallies its lines into "Safe" and dropout counts.

The web application (`student_dropout/app.py`) works as follows:

- It validates a digit-string subject count from 1 to 12 and keeps it in the session.
- It reads five CIE marks per subject in order, stopping at the first missing, blank or non-numeric field.
- It checks the feature count against the trained network's input width.
- It calls a network score of 40 or more "Graduate" and anything else "Drop Out".
- It records the truncated score and the status in the session and in the JSON reply.

Marks and scores are exact `real`s, so averages and threshold comparisons involve no rounding.

The code pads to 55 marks (`finalapp.py:184`), eleven subjects' worth, although the form accepts at most ten subjects. As a result the overall average is always the sum of the entered marks divided by 55 (`Scoring.PaddedOverallIsSumOver55`). A student with four subjects or fewer is therefore always "Likely to Dropout" (`Scoring.FewSubjectsAlwaysAtRisk`).

Modules:

- `Wrappers`: Option and Result.
- `Text`: digit strings, decimal rendering, substring test.
- `Scoring`: padding, averages, threshold.
- `EvaluationLog`: the per-roll log store, history text, tally.
- `Desktop`: the `DropoutApp` class.
- `Web`: the `WebApp` class and feature collection.
- `Parity`: what the two front ends share.

The directory of per-roll log files is modelled as a `LogStore` object holding a map from roll number to the sequence of entries written. A roll without a file is a roll absent from the map.

## Model

| member | source | states |
|---|---|---|
| `Text.NatText` | finalapp.py:166 | the decimal text of a number is a non-empty digit string with no leading zero (except for 0 itself) |
| `Text.DigitsValueOfNatText` | student_dropout/app.py:101-104 | parsing the decimal text of n as digits gives back n |
| `Text.DigitsValueLeadingZero` | student_dropout/app.py:101-104 | a leading zero keeps the string all digits and does not change its value ("07" is 7) |
| `Text.DigitsValue` | student_dropout/app.py:104 | `int(...)` of a digit string; `Text.DigitsValueOfNatText` and `Text.DigitsValueLeadingZero` state its value |
| `Text.AllDigits` | student_dropout/app.py:101 | `isdigit()` over ASCII digits; `Web.CheckSubjectCount` and `Web.RejectsNonDigits` state its use |
| `Text.IntText` | student_dropout/app.py:135 | an integer as an f-string prints it; `Web.MissingMarkText` states it for the missing-mark message |
| `Text.Contains` | finalapp.py:234 | a string contains only substrings no longer than itself |
| `Text.ContainsAt` | finalapp.py:234 | `p in s` holds exactly when some block of len(p) characters of s equals p |
| `Text.ContainsInSuffix` | finalapp.py:234 | an occurrence of the pattern in a suffix is an occurrence in the whole line |
| `Text.NotContainsWithoutLead` | finalapp.py:234 | a line lacking the pattern's first character does not contain the pattern |
| `Scoring.Padded` | finalapp.py:184-185 | after padding, the original marks are an unchanged prefix, every added mark is 0.0, and the length is the larger of the original length and the width |
| `Scoring.Zeros` | finalapp.py:184-185 | the zeros the padding loop appends; `Scoring.Padded` states them |
| `Scoring.Sum` | finalapp.py:188-189 | Python's `sum` over a list of marks; `Scoring.SumAppend`, `Scoring.PaddedSum` and `Scoring.SumBounds` state its behaviour |
| `Scoring.InRange` | finalapp.py:178 | `0 <= mark <= 100` for one mark |
| `Scoring.AllInRange` | finalapp.py:178 | the range check over every mark; the second ensures of `Desktop.DropoutApp.Predict` states its effect |
| `Scoring.SubjectAverages` | finalapp.py:187-188 | there are len / 5 subject averages, and average k is the mean of marks[5k .. 5k+5] |
| `Scoring.OverallAverage` | finalapp.py:189 | the mean of the subject averages; `Scoring.OverallIsMeanOfMarks` and `Scoring.PaddedOverallIsSumOver55` state its value |
| `Scoring.Classify` | finalapp.py:191 | the threshold; `Scoring.ClassifyThreshold` states it |
| `Scoring.OutcomeText` | finalapp.py:191 | the two result labels, "Safe" and "Likely to Dropout"; `EvaluationLog.LineMentionsSafe` relies on them |
| `Scoring.PaddedOverall` | finalapp.py:184-189 | the overall average of the padded marks; `Scoring.PaddedOverallIsSumOver55` and `Scoring.PaddedOverallBounds` state its value |
| `Scoring.Evaluate` | finalapp.py:184-191 | the outcome of a submission; `Scoring.PaddedOverallIsSumOver55` and `Desktop.EvaluateBySum` state it |
| `Scoring.ClassifyThreshold` | finalapp.py:191 | the outcome is Safe exactly when the overall average is at least 40; 40 is Safe and 39.999 is not |
| `Scoring.PaddedSum` | finalapp.py:184-185 | zero-padding leaves the total of the marks unchanged |
| `Scoring.SumOfSubjectAverages` | finalapp.py:187-189 | the subject averages add up to a fifth of the sum of the marks in complete groups |
| `Scoring.OverallIsMeanOfMarks` | finalapp.py:187-189 | with complete groups, the mean of the subject averages equals the mean of all marks |
| `Scoring.PaddedOverallIsSumOver55` | finalapp.py:184-189 | for up to 55 entered marks, the overall average is their sum divided by 55 |
| `Scoring.PaddedOverallBounds` | finalapp.py:178-189 | with every mark in [0, 100], the overall average lies in [0, 100 n / 55] and so in [0, 100] |
| `Scoring.FewSubjectsAlwaysAtRisk` | finalapp.py:184-191 | at most 20 valid marks (four subjects) always give "Likely to Dropout" |
| `Scoring.AllZeroAtRisk` | finalapp.py:184-191 | all-zero marks average 0 and give "Likely to Dropout" |
| `Scoring.FullMarksSafeFromFiveSubjects` | finalapp.py:184-191 | with 25 to 55 marks, all at 100, the outcome is Safe |
| `EvaluationLog.LineText` | finalapp.py:211 | the text of one log line; `EvaluationLog.LineMentionsSafe` states when it contains "Safe" |
| `EvaluationLog.HistoryText` | finalapp.py:223-224 | the whole file text; `EvaluationLog.HistoryAppend` and `EvaluationLog.SplitHistory` state its shape |
| `EvaluationLog.Lines` | finalapp.py:211 | one line per entry: line i is entry i's line text |
| `EvaluationLog.SplitLines` | finalapp.py:233 | a non-empty file yields at least one line |
| `EvaluationLog.SplitFirstLine` | finalapp.py:211-233 | a written line followed by more text is read back as that line, then the lines of the rest |
| `EvaluationLog.SplitHistory` | finalapp.py:209-233 | when no timestamp or printed mark list breaks a line, reading the file back line by line yields exactly one line per entry, in order |
| `EvaluationLog.TallyOfLog` | finalapp.py:226-237 | for such logs, the safe slice counted over the lines read back is the number of Safe evaluations, and the dropout slice the number of others |
| `EvaluationLog.AppendLog` | finalapp.py:207-211 | appending adds the entry at the end of the roll's log, creates the roll's log if absent, and leaves every other roll's log unchanged |
| `EvaluationLog.ReadLog` | finalapp.py:223-224 | a roll's entries, empty without a file; `EvaluationLog.AppendLog` and `EvaluationLog.AppendAllThenRead` state how appends change it |
| `EvaluationLog.AppendAll` | finalapp.py:207-211 | several appends for one roll in order; `EvaluationLog.AppendAllThenRead` states the result |
| `EvaluationLog.LogStore.Exists` | finalapp.py:215 | `os.path.exists` on the roll's log file; `Desktop.DropoutApp.ViewLogs` and `Desktop.DropoutApp.PlotGraph` state its use |
| `EvaluationLog.LogStore.Read` | finalapp.py:223-224 | the roll's log as read back; `Desktop.DropoutApp.ViewLogs` and `Desktop.DropoutApp.PlotGraph` state its use |
| `EvaluationLog.LogStore.constructor` | finalapp.py:204-205 | the store starts with no log files |
| `EvaluationLog.LogStore.Append` | finalapp.py:207-211 | the roll's log gains exactly the new entry at its end, other rolls' logs are unchanged, and no existing log is empty |
| `EvaluationLog.SafeCount` | finalapp.py:231-237 | the number of lines counted as safe never exceeds the number of lines |
| `EvaluationLog.SafeResults` | finalapp.py:191 | the number of Safe outcomes never exceeds the number of entries |
| `EvaluationLog.TallyLines` | finalapp.py:231-237 | the safe count is the number of lines containing "Safe", and safe + dropout is the number of lines |
| `EvaluationLog.LineMentionsSafe` | finalapp.py:211-234 | when the timestamp and mark text contain no capital S, a log line contains "Safe" exactly when its outcome is Safe |
| `EvaluationLog.TallyMatchesOutcomes` | finalapp.py:231-237 | for such lines, the safe slice counts exactly the Safe evaluations and the dropout slice exactly the others |
| `EvaluationLog.SafeCountAppend` | finalapp.py:231-237 | one more line adds one to exactly one of the two counts |
| `EvaluationLog.HistoryAppend` | finalapp.py:209-224 | after an append, the history text is the old history text followed by the new line |
| `EvaluationLog.AppendAllThenRead` | finalapp.py:207-211 | appending N entries for a roll and reading back gives the old entries followed by exactly those N in order, and no other roll changes |
| `EvaluationLog.AppendKeepsNoEmptyLogs` | finalapp.py:207-217 | after an append the roll has a log file, and no log file is empty |
| `Desktop.Layout` | finalapp.py:164-170 | the form has count * 5 entries, and entry k is subject k / 5 + 1, CIE k % 5 + 1 |
| `Desktop.SubjectRow` | finalapp.py:165-170 | the five entries of one subject; `Desktop.Layout` states them |
| `Desktop.EntryLabel` | finalapp.py:166 | the label beside an entry; `Desktop.LabelAt` states it |
| `Desktop.LayoutAt` | finalapp.py:164-170 | grid row i * 5 + j holds subject i + 1, CIE j + 1 |
| `Desktop.LabelAt` | finalapp.py:166-167 | the label at grid row i * 5 + j reads "Subject <i+1> - CIE<j+1>:" |
| `Desktop.CountAccepted` | finalapp.py:150-152 | the count check; `Desktop.DropoutApp.CreateSubjectInputs` states what follows from it |
| `Desktop.AllParsed` | finalapp.py:177 | `float(e.get())` succeeded for every entry; the first ensures of `Desktop.DropoutApp.Predict` states what happens when it did not |
| `Desktop.ParsedValues` | finalapp.py:177 | the parsed marks, one per entry, in entry order |
| `Desktop.EvaluateBySum` | finalapp.py:184-191 | for up to 50 valid marks, the outcome is Safe exactly when their sum divided by 55 reaches 40, and the overall average is in [0, 100] |
| `Desktop.DropoutApp.constructor` | finalapp.py:120-124 | after login as a roll, the current user is that roll and nothing has been entered or evaluated yet |
| `Desktop.DropoutApp.CreateSubjectInputs` | finalapp.py:148-173 | a count from 1 to 10 replaces the entries with the subject-major layout; anything else shows the count error and leaves the entries unchanged |
| `Desktop.DropoutApp.PadMarks` | finalapp.py:184-185 | the loop leaves the mark list equal to its zero-padding to 55 |
| `Desktop.DropoutApp.LogPrediction` | finalapp.py:207-211 | one entry (timestamp, printed marks, result) is appended to the current roll's log |
| `Desktop.DropoutApp.Predict` | finalapp.py:175-193 | a value that does not parse changes nothing. An out-of-range mark stores the parsed marks but leaves the result and logs unchanged. Otherwise the marks are padded to 55, the result is the evaluated outcome, it is shown, and exactly one entry is logged |
| `Desktop.DropoutApp.ViewLogs` | finalapp.py:213-224 | with no log the "No predictions yet." notice is shown; otherwise the full, non-empty history text is shown |
| `Desktop.DropoutApp.PlotGraph` | finalapp.py:226-244 | with no log the "No data available." notice is shown; otherwise the pie chart's slices are the counts of lines containing "Safe" and of the other lines, over the lines read back from the file text, of which there is at least one |
| `Web.CheckSubjectCount` | student_dropout/app.py:98-107 | a count is accepted, as its value, exactly when it is a non-empty digit string whose value is from 1 to 12. It is not a number exactly when it is absent, empty or not all digits, and out of range exactly when it is digits with a value outside 1 to 12 |
| `Web.AcceptsDecimalCounts` | student_dropout/app.py:101-107 | every count from 1 to 12, in decimal, with or without a leading zero, is accepted as itself |
| `Web.RejectsOutOfRangeCounts` | student_dropout/app.py:104-107 | 0 and counts above 12 are rejected as out of range |
| `Web.RejectsNonDigits` | student_dropout/app.py:101-102 | an absent or empty field, or one with a non-digit character, is rejected as not a number |
| `Web.Collect` | student_dropout/app.py:130-136 | a completed collection has exactly the requested number of features; a failed one names a missing field or a non-numeric one |
| `Web.CollectSucceedsIff` | student_dropout/app.py:130-136 | collection succeeds exactly when every field read is present, non-blank and numeric, and feature k is field k's number |
| `Web.CollectFailsAtFirst` | student_dropout/app.py:130-135 | a failed collection reports the first field in subject-then-CIE order that is not usable |
| `Web.CollectErrorPersists` | student_dropout/app.py:131-135 | once collection has stopped at a field, reading further does not change the error |
| `Web.FieldOrder` | student_dropout/app.py:131-133 | field (i, j) is read in position (i - 1) * 5 + (j - 1) |
| `Web.CollectFeatures` | student_dropout/app.py:130-136 | the nested loops return what Collect specifies for total * 5 fields, zero fields when the count is below 1 |
| `Web.IsBlank` | student_dropout/app.py:134 | `strip() == ""`; `Web.MissingMarkNamesFirstGap` states its use |
| `Web.IsSpace` | student_dropout/app.py:134 | the ASCII characters `strip()` removes |
| `Web.SubjectOf` | student_dropout/app.py:131-133 | the subject of the k-th field read; `Parity.SameMarkOrder` and `Web.FieldOrder` state it |
| `Web.CieOf` | student_dropout/app.py:131-133 | the CIE of the k-th field read; `Parity.SameMarkOrder` and `Web.FieldOrder` state it |
| `Web.KeyOf` | student_dropout/app.py:133 | the form key of the k-th field read |
| `Web.FieldCount` | student_dropout/app.py:131-132 | the number of fields the loops read: total * 5, or none when the count is below 1; `Web.CollectFeatures` states it |
| `Web.MissingAt` | student_dropout/app.py:134 | the field is absent or blank; `Web.MissingMarkNamesFirstGap` states its use |
| `Web.UsableAt` | student_dropout/app.py:134-136 | the field is present, not blank and numeric; `Web.CollectSucceedsIff` states its use |
| `Web.ValueAt` | student_dropout/app.py:136 | the number of a usable field; `Web.CollectSucceedsIff` states it is feature k |
| `Web.FirstUnusable` | student_dropout/app.py:131-136 | the field that stops collection; `Web.CollectFailsAtFirst` states its use |
| `Web.FieldError` | student_dropout/app.py:134-136 | the missing-mark error for an absent or blank field, the float error otherwise; `Web.CollectFailsAtFirst` states it |
| `Web.StatusOf` | student_dropout/app.py:154 | the status; `Web.StatusThreshold` states it |
| `Web.StatusText` | student_dropout/app.py:154 | the two status labels, "Graduate" and "Drop Out" |
| `Web.Step1Message` | student_dropout/app.py:102-107 | the two step-one error texts; `Web.WebApp.PredictStep1` states which is sent |
| `Web.ReplyFor` | student_dropout/app.py:124-165 | the JSON reply and its status code; `Web.ReplyCodes` states it |
| `Web.WebApp.SessionSubjects` | student_dropout/app.py:127 | the session's count, 1 when absent; `Web.WebApp.PredictStep2` states its use |
| `Web.Step2` | student_dropout/app.py:122-162 | the step-two decision; `Web.NoModelFirst`, `Web.FeatureCountNeverMismatches`, `Web.PredictsIff` and `Web.RecordedScoreAgreesWithStatus` state it |
| `Web.HttpCode` | student_dropout/app.py:124-165 | the error status codes; `Web.ReplyCodes` states them |
| `Web.ErrorText` | student_dropout/app.py:124-165 | the error messages; `Web.ReplyCodes` and `Web.MissingMarkText` state them |
| `Web.ReplyCodes` | student_dropout/app.py:124-165 | only a score gets 200. A missing network and a non-numeric mark get 500. A missing mark and either count mismatch get 400. Every error reply carries the error's message |
| `Web.MissingMarkText` | student_dropout/app.py:135 | the missing-mark message names the subject and CIE in plain decimal |
| `Web.Trunc` | student_dropout/app.py:157 | the recorded integer is the score truncated toward zero |
| `Web.StatusThreshold` | student_dropout/app.py:154 | the status is Graduate exactly when the score is at least 40; 40 is Graduate and 39.999 is not |
| `Web.TruncPreservesThreshold` | student_dropout/app.py:154-157 | a score is at least 40 exactly when its truncation is |
| `Web.WebApp.constructor` | student_dropout/app.py:22-29 | the network handle is fixed at start-up and the session is empty |
| `Web.WebApp.PredictStep1` | student_dropout/app.py:96-114 | an accepted count is stored in the session with a redirect to step two; otherwise a 400 with the matching message and the session is unchanged |
| `Web.WebApp.PredictStep2` | student_dropout/app.py:118-165 | the reply follows the step-two decision with the session count (default 1). A score replaces the session's prediction with the same score and status as the reply. Any error leaves the session unchanged. With the session's own count, the feature-count error never happens |
| `Web.NoModelFirst` | student_dropout/app.py:123-124 | without a network the reply is the 500 "Model not loaded", whatever the form holds |
| `Web.FeatureCountNeverMismatches` | student_dropout/app.py:130-141 | for any non-negative session count the feature-count error never happens |
| `Web.MissingMarkNamesFirstGap` | student_dropout/app.py:130-135 | a missing-mark error names a subject from 1 to total and a CIE from 1 to 5 whose field is absent or blank, and every field before it was usable |
| `Web.PredictsIff` | student_dropout/app.py:130-151 | a prediction is made exactly when every field of every subject is usable and the network's input width is total * 5 |
| `Web.RecordedScoreAgreesWithStatus` | student_dropout/app.py:151-157 | in a recorded prediction, the status is Graduate exactly when the integer score is at least 40 |
| `Parity.SameThreshold` | student_dropout/app.py:154 | a score is Safe on the desktop exactly when it is Graduate on the web |
| `Parity.SameMarkOrder` | student_dropout/app.py:131-133 | the desktop form's k-th entry and the web form's k-th field read are the same subject and CIE |

## Left out

- Tkinter windows, widgets, navigation between screens, and the PDF report of `generate_pdf`: user interface and document layout. The matplotlib rendering of the pie chart is also left out; the model keeps only the two slice sizes.
- Registration and login, in both SQLite and SQLAlchemy, with werkzeug password hashing: credential storage. `DropoutApp` starts from a logged-in roll number.
- Flask routing, templates, `login_manager`, the GET branches of both steps, and the `predict_result` page: web plumbing.
- `int(...)` and `float(...)` on the typed text: parsing arrives as `Option` values, with None where Python raises. On the desktop, a mark text that parses to NaN or infinity is rejected by the range check of Python's `predict`. The model has no such values, so that case reads as a parse failure: the error shown is the same, except that Python's `predict` has already stored the list.
- Web marks that parse to NaN or infinity: `float(...)` accepts them and, with no range check in `predict_step2`, they reach the network. `Web.Field.number` cannot hold them, so the model can only present such a field as `BadFloat`, a 500 reply Python does not give for it.
- Binary floating point: marks, averages and scores are exact reals, so rounding in `sum(...)/5` and in the comparisons with 40 is not modelled.
- The clock (`datetime.now()`) and Python's printing of the mark list: the timestamp is the `now` parameter and the printed marks are `render(marks)`. `EvaluationLog.LineMentionsSafe` and `EvaluationLog.TallyMatchesOutcomes` therefore assume that neither text contains a capital S. This holds for timestamp digits and separators and for printed floats.
- `EvaluationLog.SplitHistory` and `EvaluationLog.TallyOfLog` require that no timestamp or printed mark list contains a newline or carriage return (`EvaluationLog.OneLine`); strftime timestamps and float list reprs never do. `EvaluationLog.SplitLines` splits at '\n' only: the newline translation of text-mode files is not modelled, and the requirement makes it irrelevant.
- `EvaluationLog.AppendLog`: the store assumes that distinct roll numbers name distinct log files. In `finalapp.py` the file is the path `user_data/logs/<roll>.txt`, and registration accepts any non-empty roll text. Two rolls can therefore share a file: one holding path parts (`x` and `../logs/x`), or two differing only in letter case on a case-insensitive file system such as Windows'. For such pairs an append for one roll shows in the other's history and tally, and "every other roll's log is unchanged" does not hold.
- The file system: `os.makedirs`, `open(..., "a")`, reading, and I/O failures. They are replaced by the in-memory `LogStore`.
- The pickle model loaded at `finalapp.py:8`, which nothing uses.
- The keras network: `load_model` and `model.predict` become the `Network` handle (input width and scoring function) or None. Exceptions raised by `predict`, a NaN or infinite score (whose `int(...)` raises, giving a 500 reply), and an input width of None are not modelled.
- `Web.CheckSubjectCount`: does not model the interpreter's limit on integer conversion. From Python 3.11 on, `int(...)` by default refuses a digit string longer than 4300 characters, leading zeros included. `predict_step1` does not catch that ValueError, so the reply is a 500. The model instead accepts such a string when its value is from 1 to 12 and rejects it as out of range otherwise. The limit depends on the interpreter version and its settings.
- `str.isdigit` and `str.strip` beyond ASCII: Unicode digits, for which `isdigit` and `int` can disagree, and Unicode whitespace.
- Form fields are keyed by their (subject, CIE) pair rather than by the name "cie<i>_<j>".
- `Web.ErrorText`: the message for a non-numeric field puts the text in plain quotes. It does not reproduce Python's `repr` escaping.
- Concurrent requests and simultaneous sessions: each `WebApp` object is one user's session, and each call runs to completion.
