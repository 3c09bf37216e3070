# AgriSense rover survey pipeline: a verified model

This project models the survey part of the AgriSense backend (`main.py`). A field rover
uploads plant images one at a time into a per-survey directory. It then signals that the
survey is complete. The service schedules one background job for the survey, and the job:

- classifies every `.jpg` image of the directory, in listing order;
- folds the top suggestion of each image into a disease-frequency dictionary;
- turns the dictionary into a one-line summary ("2 plant(s) with Leaf Blight, 1 plant(s)
  with Rust", or "All plants appear healthy.");
- asks the advisory service once, in the survey's language;
- writes one consolidated report whose single suggestion is the summary, with probability 1.0;
- removes the upload directory and publishes the survey id on `agrisense/user/report_ready`.

The app then downloads the report by survey id.

Modules:

- `Results`: Option and Result.
- `Locale`: the language table and its fallback to English.
- `Severity`: the three-level severity rule.
- `DiseaseSummary`: the count fold, its independent characterisation, the decimal text of
  counts, the summary phrase and the synthetic suggestion.
- `Survey`: paths, the `.jpg` filter, classification of a whole survey, the counting loop, the
  outcome of one job as a function (`SurveyOutcome`) and the state it leaves (`Commit`), the
  completion check (`Admit`), and the class `SurveyStore`. The class holds the upload
  directories, the report files, the queue of scheduled jobs and the ordered trace of report
  writes, directory removals and notifications. Its methods are proved against
  `SurveyOutcome` and `Commit`.
- `Scenarios`: end-to-end runs on concrete uploads:
  - three images with two diseases;
  - a survey without images;
  - a failing classifier;
  - a reply without suggestions;
  - a top suggestion without a name, reported as "Unknown";
  - a survey triggered twice.

The file system is two maps keyed by path strings: `temp_uploads/<id>` maps to a directory,
which maps file names to bytes, and `reports/AgriSense_Report_<id>.pdf` maps to a report. The
classification service and the advisory service are function parameters that may fail. The
order in which `os.listdir` returns a directory is a parameter, constrained to list each entry
once.

`LANGUAGE_MAP` (main.py:42-45), its lookups (main.py:67, 163) and the severity rule
(main.py:72) appear in the file only inside the commented-out earlier version of the service.
The live code says the language mapping "remains the same" (main.py:211) and uses
`LANGUAGE_MAP` at main.py:283. The severity rule sits inside the commented-out single-image
analysis. The live file says only that the single-image endpoint's logic "remains the same"
(main.py:315). The model takes the commented definitions as the ones in force.

Three behaviours of the code are kept as written. A reader might expect one honoured trigger
per survey, an error for an unknown survey id, and cleanup after a failed job. The code does
none of these:

- Nothing limits a survey to one honoured trigger. A second trigger queues a second job.
  When the first job succeeded and nothing was uploaded in between, the second job fails
  because the directory is gone (`Scenarios.DoubleTrigger`). When the first job failed, the
  directory is still there and the second job runs the survey again.
- A trigger for an unknown survey id is acknowledged like any other. Its job then stops with
  `DirectoryMissing`.
- A failed job deletes nothing. The upload directory is removed only after the report is
  written (`Survey.CommitSucceeded`, `Survey.Commit`).

## Model

| member | source | states |
|---|---|---|
| Locale.ResolveLanguage | main.py:283 | the configuration is always an entry of the table: the code's own entry when the code is in the table, the English entry otherwise |
| Locale.ResolveLanguageCases | main.py:283 | every code except "hi" resolves to English set in NotoSans; "hi" resolves to Hindi set in NotoSansDevanagari |
| Severity.SeverityOf | main.py:72 | High exactly when the probability is above 0.75; Low exactly when it is at most 0.4 |
| Severity.SeverityMonotone | main.py:72 | a higher probability never gives a lower severity |
| Severity.SeverityBoundaries | main.py:72 | both thresholds are strict: 0.75 gives Medium, 0.4 gives Low |
| DiseaseSummary.TopNameCases | main.py:269-271 | an empty suggestion list yields no name; otherwise the top suggestion's name, or "Unknown" when it has none |
| DiseaseSummary.UnnamedIsUnknown | main.py:271 | an unnamed top suggestion and one named "Unknown" are counted under the same key, "Unknown" |
| DiseaseSummary.UnknownSummary | main.py:271-278 | one image with an unnamed top suggestion gives the summary "1 plant(s) with Unknown" |
| DiseaseSummary.Bump | main.py:272 | `d[k] = d.get(k, 0) + 1`: the key's count rises by one and no other count changes; an existing key keeps its place and a new key is appended; the total rises by one |
| DiseaseSummary.TallyIsTallyOf | main.py:262-272 | the fold yields distinct keys, exactly the names met, each with the number of times it was met, in order of first occurrence |
| DiseaseSummary.TallyUnique | main.py:262-272 | any dictionary with those four properties is the one the fold builds |
| DiseaseSummary.OrderedKeysUnique | main.py:278 | two duplicate-free key lists with the same members, both in first-occurrence order, are equal, so the order of `items()` is determined |
| DiseaseSummary.TallyTotal | main.py:265-272 | the counts add up to the number of names folded |
| DiseaseSummary.DecimalString | main.py:278 | `str(count)` is a non-empty string of decimal digits without a leading zero; zero is written "0" |
| DiseaseSummary.DecimalRoundTrip | main.py:278 | reading the decimal text back gives the count |
| DiseaseSummary.PhraseHealthyIff | main.py:275-278 | the summary is "All plants appear healthy." exactly when the dictionary is empty |
| DiseaseSummary.PhraseCons | main.py:278 | a summary of several entries is the first entry's text, ", ", then the summary of the rest |
| DiseaseSummary.PresentFilters | main.py:269-271 | the names counted are the top names of the images with a non-empty suggestion list, each as often as it was a top name |
| DiseaseSummary.PresentEmpty | main.py:270 | no name is counted exactly when no image had a suggestion |
| DiseaseSummary.TallyPresentStep | main.py:266-272 | one more image bumps its top name if it has one, and leaves the dictionary as it was otherwise |
| DiseaseSummary.SurveyCounts | main.py:262-278 | each name's count equals the number of images whose top suggestion has that name; the counts add up to the images with a suggestion; the summary is the healthy phrase exactly when no image had one |
| DiseaseSummary.SurveySummaryExample | main.py:262-278 | top names Leaf Blight, Leaf Blight, Rust give "2 plant(s) with Leaf Blight, 1 plant(s) with Rust" |
| DiseaseSummary.Consolidated | main.py:287 | one suggestion, probability 1.0, whose name is the summary |
| Survey.PathsInjective | main.py:297 | distinct survey ids never share an upload directory or a report path |
| Survey.IsJpgExamples | main.py:260 | the filter is a case-sensitive suffix match: ".JPG", ".jpeg" and ".png" names are not classified |
| Survey.JpgFilesExact | main.py:260 | the files classified are exactly the listed names that end in ".jpg" |
| Survey.JpgFilesSnoc | main.py:260 | listing one more file appends it to the images exactly when it ends in ".jpg" |
| Survey.ClassifyAllMeaning | main.py:265-271 | classifying a survey succeeds exactly when every image's call succeeds; the result then holds each image's top name (or nothing, for an empty suggestion list) at that image's position |
| Survey.ClassifyAllStops | main.py:265-268 | once an image's classification fails, the run ends with that failure and later images are not classified |
| Survey.ClassifyAllAgree | main.py:265-268 | classification reads only the listed images |
| Survey.DiagnoseCases | main.py:269-270 | a reply without a `suggestions` key, or with an empty list, contributes no name; otherwise its top suggestion's name |
| Survey.DiagnosedAsCounts | main.py:265-272 | in a successful run each name occurs once per `.jpg` file diagnosed with it |
| Survey.CountDiseases | main.py:262-272 | the loop returns the first failure of the run, or the dictionary the fold builds from the run's top names |
| Survey.SurveyOutcome | main.py:253-296 | the job stops with DirectoryMissing, naming the directory, exactly when the directory is missing; a report is in the resolved language |
| Survey.SurveyFailureCauses | main.py:253-308 | a job fails with DirectoryMissing exactly when the directory is missing; with ClassificationFailed exactly when some `.jpg` image's call fails; with AdvisoryFailed only after every image was classified; when the directory exists and every call succeeds, the job succeeds exactly when the advisory call on the run's summary succeeds |
| Survey.SurveyReportContents | main.py:283-296 | a written report has one suggestion of probability 1.0, and it is the consolidated suggestion of the summary of the run's top names; the summary is the healthy phrase exactly when no image yielded a suggestion; the language is the resolved one |
| Survey.NonJpgIgnored | main.py:260 | adding a non-`.jpg` file to a survey leaves the job's outcome unchanged |
| Survey.SurveyReportCounts | main.py:262-296 | the written summary is the phrase of a dictionary whose count for each name is the number of the survey's `.jpg` files diagnosed with it |
| Survey.Commit | main.py:296-308 | a failed job changes nothing; a successful one removes exactly the survey's directory, adds exactly its report path, and appends three events to the trace |
| Survey.CommitIsolated | main.py:296-308 | a job leaves every other survey's directory and report as they were |
| Survey.CommitSucceeded | main.py:296-308 | after a successful job the report is at the survey's path and the directory is gone; the events are the write, then the removal, then the notification |
| Survey.Admit | main.py:334-337 | a missing or empty survey id is a 400 and no job; otherwise one job for that id, with the language "en" when none is given |
| Survey.SurveyStore.UploadImage | main.py:319-328 | the survey's directory is created if missing and the file is stored under its name, replacing any earlier one; no other survey, report, job or event changes |
| Survey.SurveyStore.SurveyComplete | main.py:332-342 | a rejected request changes nothing; an accepted one appends exactly one job and acknowledges at once, with no check that the survey exists or is not already queued |
| Survey.SurveyStore.ProcessSurveyReport | main.py:253-308 | the result is the job's outcome, and the new state is the old state with that outcome committed: nothing changes on failure |
| Survey.SurveyStore.Finish | main.py:296-308 | writes the report, removes the directory, then publishes the survey id |
| Survey.SurveyStore.RunNextJob | main.py:340 | runs the oldest scheduled job, if any, and removes it from the queue |
| Survey.SurveyStore.GetReport | main.py:346-351 | a 404 exactly when no report exists at the survey's path; otherwise that report |
| Scenarios.FieldOutcome | main.py:253-308 | three images, two with leaf blight and one with rust, give the report "2 plant(s) with Leaf Blight, 1 plant(s) with Rust" in English |
| Scenarios.EmptyOutcome | main.py:275-276 | a survey without `.jpg` images gives a healthy report in the requested language, even with the classifier down |
| Scenarios.UnnamedOutcome | main.py:269-296 | a survey whose one image has an unnamed top suggestion gets the report "1 plant(s) with Unknown" |
| Scenarios.FlakyOutcome | main.py:265-268 | a failing second image ends the job with that failure |
| Scenarios.JpgListing | main.py:260 | a non-image name in the listing is skipped and the images keep their order |

## Left out

- The HTTP call to the classification service (main.py:216-223) is a parameter. Any non-success status, network error or unparsable body is one `ServiceError`.
- The advisory call (main.py:225-237) is a parameter. The prompt text, the model call and the JSON cleanup are not modelled. A reply that does not parse is a failure of that call.
- A JSON `null` in a suggestion's name, or a non-string name, is not modelled. A name is either present as a string or absent, and an absent name reads as "Unknown".
- The request body of the completion call has string values or missing keys only. Non-string JSON values are not modelled, nor is a `null` language code.
- Probabilities are exact reals. Floating-point rounding at the 0.4 and 0.75 thresholds is not modelled.
- PDF rendering (`create_pdf_report`) is not part of this model. The stored `Report` records the renderer's inputs: the synthetic suggestion, the analysis, the labels and the language.
- The MQTT publish (main.py:239-250) is an event in the trace. Its connection errors are swallowed in the source, so the event is always recorded.
- FastAPI's background scheduling is a queue plus `RunNextJob`. Concurrent execution of jobs and of uploads during a job is not modelled.
- Survey ids and file names containing "/" are treated as opaque keys. Nested paths, and an absolute file name replacing the directory in `os.path.join`, are not modelled.
- Survey.PathsInjective: holds for the path strings only. On disk the ids "." and ".." resolve to `temp_uploads` itself and to its parent, and `temp_uploads/.` is also where files of the id "" land. The model has no path resolution, so its statements about separate surveys hold only for plain ids: non-empty, without "/", and neither "." nor "..".
- Survey.CommitIsolated: for the id "." the source's `shutil.rmtree` (main.py:304) deletes every survey's upload directory, and for ".." it empties the working directory, `reports/` included. The model removes one map key, so other surveys are untouched only for plain ids.
- Survey.SurveyFailureCauses: for the id "." the source's `os.listdir("temp_uploads/.")` (main.py:260) always succeeds, so the job runs where the model reports DirectoryMissing unless something was uploaded under ".". The statements hold for plain ids only.
- Survey.SurveyFailureCauses: rendering (main.py:296), the report write (main.py:298-299) and the directory removal (main.py:304) are taken to succeed. The renderer is defined outside the live code (main.py:212), so its failures cannot be stated. A failing render would stop the job before anything is written, which is the state a failed advisory call leaves. A failing removal would leave the report written, the directory in place and no notification sent, a state `Commit` does not produce.
- Survey.SurveyOutcome: "DirectoryMissing exactly when the directory is missing" holds for plain ids only. For the ids "." and ".." the source's `os.listdir` (main.py:260) reads `temp_uploads` itself or its parent and the job runs, while the model finds no map key and reports DirectoryMissing.
- Survey.Commit: "removes exactly the survey's directory" holds for plain ids only. For "." the source's `shutil.rmtree` (main.py:304) empties every survey's upload directory, and for ".." the working directory, while the model removes one map key.
- Survey.CommitSucceeded: "the directory is gone" and the three events hold for plain ids only. For "." and ".." the final removal in `shutil.rmtree` (main.py:304) raises after the contents are deleted, so the path stays and nothing is published (main.py:307-308).
- Survey.SurveyStore.Finish: writes, removes and publishes in that order for plain ids only. For "." and ".." the removal raises after emptying the directory, and the notification (main.py:307-308) is never sent.
- Survey.SurveyStore.UploadImage: the file names "", "." and ".." fail to open in the source (main.py:325), while the model stores them. An upload under the id "." lands in `temp_uploads` itself. The statement that no other survey changes holds for plain ids and names only.
- Survey.SurveyStore.ProcessSurveyReport: "nothing changes on failure" holds for plain ids with a removal that succeeds. For the id "." the source writes the report and empties `temp_uploads`, and only then does the final directory removal raise, so no notification is sent.
- The classifier is a function of the image bytes. Two files with identical bytes therefore get the same reply within one job, while a networked service may fail one call and not the other.
- The listing is taken as given. `os.listdir` order is unspecified, so it is a parameter required to list each entry of the directory once.
- The single-image `/analyze` endpoint (main.py:312-315) is not modelled. Only its language lookup and severity rule are, as `Locale` and `Severity`.
- Environment configuration, API keys, logging and console output are not modelled.
- Survey.SurveyFailureCauses: states that a classification failure is reported as ClassificationFailed, not which image's error is carried. Survey.CountDiseases and Survey.ClassifyAllStops state that it is the first failing image's error.
