# FSR calibration: runs, acquisition and processing

This project models the core of an FSR (force-sensing resistor) calibration tool. It covers
the Python modules `Code/Protocol.py` and `Code/Process/process_calibration.py`.

- **Calibration runs.** A run of sensor `s` is the CSV file `Data/sensor{s}/calibracion_sensor{s}_{n}.csv`.
  `list_calibrations` lists a sensor's runs in index order. `next_calibration_index` chooses the
  index of a new run. The delete option removes one run and the reports processed from it.
  The module is `CalibrationFiles`, built on `Strings`, `Paths` and `Sorting`.
- **Acquisition.** `calibracion_ble_wrapper` creates the run's file and walks the 16 weights
  from 250 g to 4000 g. For each weight it waits for the user's confirmation, collects
  `samples` "Calib..." notifications with a ten-second countdown between two samples, and
  appends one `[Sensor, Peso_g, Lectura]` row per sample. A cancel seen in the confirmation
  wait discards the file. A cancel seen anywhere else keeps the file with the rows saved so
  far, including the partial batch of the weight being sampled. The module is `Acquisition`.
  The wrapper's globals and progress-handler flags are the fields of the class
  `Acquisition.Session`. The BLE link, the GUI and the clock become a sequence of events, with
  at most one event delivered per `asyncio.sleep`. Each wait and loop is also a function of the
  input: `ResponseWait`, `CountdownOf`, `SampleLoop`, and `PassesFrom` for the weight loop. The
  methods are proved to consume exactly what these functions do, so the saved batches and the
  outcome of a run are fixed by its input.
- **Processing.** `process_file` computes a run's properties from its table:
  - the weight and voltage ranges;
  - the full-scale output (FSO) and the span;
  - the precision of the worst weight group, in percent of FSO;
  - the resolution;
  - the R² of the quadratic fit of voltage against ln(weight).

  It also names the three files it writes. `process_all` visits the sensor folders in sorted
  order and processes every CSV file in each, in sorted order. The first failure ends the batch.
  The modules are `Statistics` (pure numerics) and `Processing`.

Reals are exact. NumPy's NaN is `None`. Rounding is half-to-even, as NumPy and Python round.
The square root, the logarithm and `np.polyfit` are parameters (`Processing.Numerics`).
The file system is a value (`Processing.Disk`): its folders, the listing of each folder and
the table in each CSV file.

The code converts every reading with the same formula and makes no range check
(`Statistics.VoltageMonotone`).

## Model

| member | source | states |
|---|---|---|
| CalibrationFiles.RunIndexOfRunFileName | Code/Protocol.py:82-86 | the run pattern accepts every name of the form `calibracion_sensor{s}_<digits>.csv`, with or without a final newline, and yields the decimal value of the digits |
| CalibrationFiles.RunIndexAcceptsOnlyRunNames | Code/Protocol.py:82-86 | every name the run pattern accepts has that form: a non-empty run of ASCII digits between the prefix and `.csv` |
| CalibrationFiles.NewRunNameIndex | Code/Protocol.py:186-187 | the name given to run `n` is read back by the run pattern as index `n` (naming and listing round-trip) |
| CalibrationFiles.ListCalibrations | Code/Protocol.py:79-88 | the listed runs are exactly the folder entries the pattern accepts, each as often as it occurs, and each is ordered by (index, name) before its successor |
| CalibrationFiles.ListedInIndexOrder | Code/Protocol.py:86-88 | whatever the order of the folder listing, the listed runs have non-decreasing indices |
| CalibrationFiles.TwoBeforeTen | Code/Protocol.py:86-87 | indices compare as numbers, not as text: run 2 is listed before run 10 and not after it |
| CalibrationFiles.MaxOrZero | Code/Protocol.py:96 | `max(nums, default=0)` bounds every element, is one of them, and is 0 for an empty list |
| CalibrationFiles.NextIndexExceedsListed | Code/Protocol.py:90-96 | the next index (as intended) is at least 1 and larger than the index of every run in the folder |
| CalibrationFiles.NextIndexFollowsLargest | Code/Protocol.py:90-96 | the next index is 1 or follows an index that some run in the folder carries; so it is one past the largest |
| CalibrationFiles.NextIndexBounds | Code/Protocol.py:92-96 | the largest listed index bounds every run's index and is carried by a run unless it is 0 |
| CalibrationFiles.NewRunNameIsFresh | Code/Protocol.py:574-577 | under the intended index (`NextCalibrationIndex`), the name of a new run is read back with its own index and is not already in the folder; the index as written gives no such guarantee (see Findings) |
| CalibrationFiles.SearchNeverMatchesRunName | Code/Protocol.py:93-94 | the `_{s}_(\d+)\.csv$` search finds no match in any name the run pattern accepts |
| CalibrationFiles.NextCalibrationIndexAsWrittenIsOne | Code/Protocol.py:90-96 | as written, `next_calibration_index` returns 1 whatever runs exist |
| CalibrationFiles.NextCalibrationIndexAsWrittenReusesRunOne | Code/Protocol.py:574-580 | as written, once run 1 exists every new run is given run 1's name again |
| CalibrationFiles.RelatedAsWrittenExtends | Code/Protocol.py:406-412 | every report the intended test relates to a run, the `startswith` test relates too; the two differ exactly on names that continue the base name with something other than `_`, and on the base name itself |
| CalibrationFiles.RemoveReports | Code/Protocol.py:408-412 | the loop over the report folder removes exactly the reports the test relates to the base name; every other report keeps its multiplicity |
| CalibrationFiles.DeleteCalibration | Code/Protocol.py:401-412 | removing a CSV file that is not in the data folder raises and changes nothing; otherwise the run's file leaves the data folder, then exactly the related reports leave the report folder, or, with no report folder, listing it raises after the CSV file is gone |
| CalibrationFiles.PickAsWritten | Code/Protocol.py:398-399 | `files[idx-1]` with Python indexing selects a listed file or raises |
| CalibrationFiles.PickZeroAsWrittenTakesLast | Code/Protocol.py:165-166 | as written, typing 0 at the delete prompt selects the last run listed |
| CalibrationFiles.Pick | Code/Protocol.py:162-166 | the intended selection succeeds exactly for the numbers shown (1 to `len(files)`) and yields the file shown under that number |
| CalibrationFiles.PickAsWrittenExtendsPick | Code/Protocol.py:395-399 | both selections agree on every number shown; as written, the other numbers that select a run are exactly 0 down to `1 - len(files)` |
| CalibrationFiles.DeleteSelectedAsWritten | Code/Protocol.py:390-415 | the delete option as written: with no run listed nothing happens; otherwise the number selects with Python's indexing, a number that selects nothing is reported and changes no folder, and a selected run leaves the folder with every report whose name starts with its base name |
| CalibrationFiles.DeleteSelected | Code/Protocol.py:390-415 | the delete option as intended: only the numbers shown select a run, which leaves the folder with the reports of its own base name followed by `_`; the other outcomes are those of the option as written |
| Paths.BasenameJoin | Code/Process/process_calibration.py:54 | the basename of `join(dir, name)` is `name` for a name without slashes |
| Paths.StemOfExtension | Code/Protocol.py:175 | `splitext(x + "." + e)[0]` is `x` when `x` ends in an ordinary character and `e` holds no dot or slash |
| Sorting.SortBy | Code/Process/process_calibration.py:124 | `sorted` returns a permutation of its input, ordered step by step under a total order |
| Sorting.OrderedFromSorted | Code/Process/process_calibration.py:124 | a sequence sorted step by step under a transitive order is ordered throughout |
| Sorting.FilterOrdered | Code/Process/process_calibration.py:126-131 | skipping entries keeps the remaining ones in order |
| Strings.ParseNatToString | Code/Protocol.py:86 | `int` of the digits `str(n)` writes gives `n` back |
| Strings.StripSpec | Code/Protocol.py:563 | `strip` removes whitespace, and only whitespace, from both ends, and leaves no whitespace at either end |
| Strings.AfterLastColon | Code/Protocol.py:679 | `split(':')[-1]` is the longest colon-free suffix, preceded by a colon when it is shorter than the message |
| Strings.StrLeTotal | Code/Process/process_calibration.py:124 | string comparison is total |
| Strings.StrLeAntisymmetric | Code/Process/process_calibration.py:124 | two names that compare both ways are equal |
| Strings.StrLeTransitive | Code/Process/process_calibration.py:124 | string comparison is transitive |
| Acquisition.Weights | Code/Protocol.py:586 | 16 weights, from 250 g to 4000 g, strictly increasing, all multiples of 250 |
| Acquisition.Notified | Code/Protocol.py:562-565 | the handler appends at most one message per event |
| Acquisition.NotifiedAreCalib | Code/Protocol.py:562-565 | every message the handler appends starts with "Calib" |
| Acquisition.NotifiedExactly | Code/Protocol.py:562-565 | a message is in the buffer exactly when some event is a notification whose stripped text is that message and starts with "Calib" |
| Acquisition.NotifiedAppend | Code/Protocol.py:562-565 | the messages appended over two consecutive stretches of input are those of each stretch, in order |
| Acquisition.RowsOfOrdered | Code/Protocol.py:590-680 | the file's rows run through the weights in ascending order, using only weights already reached |
| Acquisition.RowsOfLength | Code/Protocol.py:676-680 | every saved batch adds at most `samples` rows; full batches give `samples` rows per weight |
| Acquisition.Take | Code/Protocol.py:678 | `buffer[:samples]` is a prefix of the buffer, of length `samples` when the buffer holds that many |
| Acquisition.FirstSignal | Code/Protocol.py:605-612 | the first confirmation or cancel of an input, if any: every event before it is neither, and there is none exactly when the input holds neither |
| Acquisition.WaitedFor | Code/Protocol.py:605-612 | a wait that stops at the first signal it consumes has consumed the input up to and including the first signal, and has consumed a confirmation (a cancel) exactly when that signal is a confirmation (a cancel) |
| Acquisition.ChainedAreCalib | Code/Protocol.py:562-565 | every message of every saved batch is a "Calib" notification |
| Acquisition.ChainedCancel | Code/Protocol.py:618-673 | a cancel consumed while any saved weight was sampled has been consumed by the end of the saved weights |
| Acquisition.DeliveredEvents | Code/Protocol.py:562-565 | `k` sleeps deliver exactly the first `k` events: the buffer gains their notifications, and the cancel event is set when it was or one of them is a cancel |
| Acquisition.ResponseWaitStops | Code/Protocol.py:641-651 | the response wait stops at the first sleep after which sample `i` is in the buffer or the cancel event is set, or at the end of the input; it sleeps no more than that, and only its last sleep can set the cancel event |
| Acquisition.CountdownStops | Code/Protocol.py:656-670 | the countdown sleeps at most `n` times; unless the cancel event is set it sleeps `n` times or until the input ends; only its last sleep can set the cancel event, so it stops right after the first cancel it consumes |
| Acquisition.CountdownIdle | Code/Protocol.py:658-661 | with a cancel pending or the input exhausted, the countdown consumes nothing |
| Acquisition.CountdownKeeps | Code/Protocol.py:656-670 | a countdown begun once sample `i` is in the buffer, or the input is exhausted, ends with the sample in or the input exhausted unless it meets a cancel |
| Acquisition.SampleStepStops | Code/Protocol.py:620-670 | one pass of the sample loop stops right after the first cancel it consumes; when it ends without a cancel, sample `i` is in the buffer or the input is exhausted |
| Acquisition.SampleLoopStops | Code/Protocol.py:620-670 | the sample loop consumes a run of events and stops right after the first cancel it consumes |
| Acquisition.SampleLoopIdle | Code/Protocol.py:620-623 | with a cancel pending or the input exhausted, the sample loop consumes nothing |
| Acquisition.SampleLoopMisses | Code/Protocol.py:620-651 | the sample loop ends with a sample missing and no cancel set only when the input is exhausted |
| Acquisition.LoopEnd | Code/Protocol.py:620-670 | a sample loop begun on an input leaves exactly the input `SampledEnd` names, the input left by the sample loop of that input |
| Acquisition.PassFromPasses | Code/Protocol.py:590-680 | the stretch the input determines for a weight that is saved is a pass: its confirmation wait ends on the first signal, a confirmation, its sample loop ends where the input's does, and its batch is the first `samples` notifications in between |
| Acquisition.ChainedPasses | Code/Protocol.py:590-680 | consecutive saved passes, with no cancel pending when the last began and after which the loop stopped (every weight saved, or the next pass does not save its weight), are exactly the passes the input determines |
| Acquisition.Session.Sleep | Code/Protocol.py:562-612 | one sleep delivers at most one event: a notification reaches the buffer, a confirmation or a cancel sets its flag, and nothing else changes |
| Acquisition.Session.AwaitConfirmation | Code/Protocol.py:605-615 | with no cancel pending, the wait consumes the input up to its first signal and sets the canceled flag exactly when that signal is a cancel; with one pending it sets the flag at once and consumes nothing; without a signal it stalls at the end of the input; when it ends, the flag is set exactly when a cancel was requested and exactly when no confirmation came |
| Acquisition.Session.AwaitResponse | Code/Protocol.py:641-651 | the response wait ends with sample `i` in the buffer exactly when it arrived, on a cancel exactly when a cancel was requested and the sample is missing, or when the input ends with no cancel requested; it consumes exactly what the response wait of the input consumes (`ResponseWait`), so it stops right after the event that brings the sample or the cancel; the canceled flag stays unset |
| Acquisition.Session.Countdown | Code/Protocol.py:656-670 | the countdown consumes exactly what the countdown of the input consumes (`CountdownOf`): a pending cancel consumes nothing and is recorded as seen while sampling; without a cancel it consumes ten events, or what is left of the input; a cancel it consumes ends it right after that event |
| Acquisition.Session.CountdownLoop | Code/Protocol.py:658-670 | the loop ends with the ten seconds over or with the cancel event set, one sleep per second it ran, having consumed what the countdown of the input consumes so far |
| Acquisition.Session.TakeSample | Code/Protocol.py:620-670 | a pending cancel stops the pass before it counts a step; otherwise it adds one step, and when it goes on without a cancel, sample `i` is in the buffer; it consumes exactly one pass of the sample loop of the input (`SampleStep`); after the last sample, a cancel requested has been seen |
| Acquisition.Session.SampleRound | Code/Protocol.py:620-670 | one pass of the sample loop keeps the loop's state one sample further, or ends the loop having consumed what the whole sample loop of the input consumes |
| Acquisition.Session.CollectSamples | Code/Protocol.py:618-670 | the buffer is cleared and holds the notifications consumed since; the loop consumes exactly the sample loop of the input (`SampleLoop`), so it stops right after the first cancel it consumes and never reaches the next weight's signals; it stalls exactly when neither every sample came nor a cancel was set; without a cancel the step counter advances by `samples`; a cancel requested during sampling is always seen by a check of the sample loop |
| Acquisition.Session.SaveRows | Code/Protocol.py:676-680 | the file gains one row `[sensor, peso, reading]` per buffered message, for the first `samples` messages only |
| Acquisition.Session.CalibrateWeight | Code/Protocol.py:590-680 | the pass stops exactly when a cancel was already requested or the first signal it meets is a cancel, and sets the canceled flag exactly in the second case; it saves its weight exactly when the input lets the pass complete (`Completes`), and then its stretch is the one the input determines (`PassFrom`): from the confirmation wait through the confirming signal to where the sample loop of the input ends, with the batch the first `samples` notifications in between; a cancel requested by the end of the pass has always been seen |
| Acquisition.Session.NextWeighed | Code/Protocol.py:590-680 | after the `k`-th weight is saved, the loop's record holds for `k + 1` weights: the passes are chained from the start of the loop and the rows are those of their batches |
| Acquisition.Session.Halts | Code/Protocol.py:590-615 | a pass that saves nothing halts the loop: the flag is set exactly when no cancel was pending and the first signal after the saved weights is a cancel, the input ended in a wait exactly when neither holds, and that pass does not complete |
| Acquisition.Session.WeighNext | Code/Protocol.py:590-680 | one pass of the weight loop keeps the loop's record for one more weight, or halts it as `Halts` states |
| Acquisition.Session.WeighEach | Code/Protocol.py:590-680 | the loop stops after the first pass that saves nothing, with the saved weights chained from the start of the loop, or after all 16 |
| Acquisition.Session.Settled | Code/Protocol.py:590-680 | where the loop stops, the saved passes are exactly those the input determines over the 16 weights (`PassesFrom`); every batch holds at most `samples` messages; without a cancel or a stall all 16 weights are saved with `samples` rows each |
| Acquisition.Session.WeighAll | Code/Protocol.py:586-680 | the saved passes are exactly those the input determines (`PassesFrom` over `Weights()`), so every batch and row is fixed by the input: each batch is the first `samples` notifications after its weight's confirmation; fewer than 16 weights are saved only when the next pass does not complete; the flag is set exactly when, besides, no cancel is pending and the next first signal is a cancel, and the input ended in a wait exactly when neither holds; a cancel requested by the end has always been seen |
| Acquisition.Session.Begin | Code/Protocol.py:555-588 | a run starts with a clear buffer and flag, and a header-only file named after the index `next_calibration_index` returns as written, which is 1; its two sleeps consume the first two events |
| Acquisition.Session.Concluded | Code/Protocol.py:586-690 | restated from the start of the run: a cancel that is the first signal of the first confirmation wait sets the flag, and a cancel consumed while a saved weight was sampled leaves it unset |
| Acquisition.Session.Run | Code/Protocol.py:547-693 | without a connection nothing changes; the saved weights' passes are exactly those the input determines (`RunPasses`); the file is removed exactly when fewer than 16 weights were saved, no cancel was consumed before, and the first signal after the saved weights is a cancel, in particular when the first signal of the first wait is a cancel; the run waits for input exactly when, instead, that signal is missing; a cancel consumed while sampling keeps the file with the rows saved so far, including the partial batch of the weight being sampled; an input without a cancel is never discarded, and when saved the file holds 16 × `samples` rows of "Calib" notifications; the saved path is always run 1's |
| Acquisition.FirstWaitCancelDiscards | Code/Protocol.py:605-690 | a cancel right after the set-up removes the run's file |
| Acquisition.CancelWhileSamplingPlan | Code/Protocol.py:620-651 | on the input set-up, confirmation, cancel with one sample, the first weight's pass is the only one, and the cancel it consumed in the response wait is pending when the second weight's check runs |
| Acquisition.CancelWhileSamplingSaves | Code/Protocol.py:590-693 | on the input set-up, confirmation, cancel with one sample, the run keeps its file: the response wait consumes the cancel without setting the flag, and the next weight's top check stops the loop |
| Acquisition.CancelAfterSamplePlan | Code/Protocol.py:620-670 | on the input set-up, confirmation, "Calib:1", cancel with one sample, the first weight's pass is the only one; it ends before the cancel, as the last sample has no countdown, so after it no cancel is pending and the next first signal is the cancel |
| Acquisition.CancelAfterSampleDiscards | Code/Protocol.py:605-693 | on the input set-up, confirmation, "Calib:1", cancel with one sample, the run removes its file: the cancel is the first signal of the second weight's confirmation wait |
| Acquisition.TwoWeightsThenWait | Code/Protocol.py:590-680 | on the input set-up, confirmation, "Calib:1", confirmation, "Calib:2" with one sample, the run waits for the third confirmation with the rows of 250 g and 500 g written |
| Statistics.RoundHalfEven | Code/Process/process_calibration.py:15 | rounding lands within half a unit of its argument, and a tie goes to the even integer |
| Statistics.RoundToMonotone | Code/Process/process_calibration.py:56-61 | rounding to decimals never reverses the order of two values |
| Statistics.VoltageAtScaleEnds | Code/Process/process_calibration.py:15 | reading 0 is 0 V and reading 1023 is 3.3 V |
| Statistics.VoltageMonotone | Code/Process/process_calibration.py:15 | a larger reading never gives a smaller voltage; no range check is made |
| Statistics.VoltageSamples | Code/Process/process_calibration.py:15 | readings 100, 102, 200 and 198 give 0.323, 0.329, 0.645 and 0.639 V |
| Statistics.Max | Code/Process/process_calibration.py:19-20 | a column's maximum is one of its values and bounds them all |
| Statistics.Min | Code/Process/process_calibration.py:19-20 | a column's minimum is one of its values and is below them all |
| Statistics.RangeSpec | Code/Process/process_calibration.py:23-24 | FSO and span are never negative, and are zero exactly when every value of the column is the same |
| Statistics.ResolutionOfRun | Code/Process/process_calibration.py:35 | the resolution is NaN exactly when every sample has the same weight, and is otherwise non-negative |
| Statistics.NanMax | Code/Process/process_calibration.py:32 | `np.nanmax` is NaN exactly when every value is NaN, and is otherwise the largest defined value |
| Statistics.Keys | Code/Process/process_calibration.py:28 | the group keys are the weights of the run, each once, in ascending order |
| Statistics.PrecisionOfRun | Code/Process/process_calibration.py:27-32 | the run's precision is NaN exactly when FSO is zero or no weight occurs twice; otherwise it is the precision of some group and at least that of every group |
| Statistics.SqDistZero | Code/Process/process_calibration.py:46 | a residual sum of squares is never negative, and is zero exactly when the fit reproduces every value |
| Statistics.RSquaredBounds | Code/Process/process_calibration.py:48 | a defined R² is at most 1, and at least 0 when the residual sum does not exceed the total one |
| Statistics.RSquaredOfFit | Code/Process/process_calibration.py:44-48 | R² is NaN exactly when every voltage equals the mean voltage; when defined it is at most 1, and at least 0 for a fit no worse than the mean |
| Statistics.FlatRun | Code/Process/process_calibration.py:23-48 | a run with a single voltage has NaN precision and NaN R² |
| Processing.ProcessFile | Code/Process/process_calibration.py:8-116 | `process_file` yields the run's properties and the paths of its three artefacts, or the error it raises, with the precision computed by the loop over the weight groups |
| Processing.RunPrecision | Code/Process/process_calibration.py:27-32 | the loop over the weight groups collects every group's precision in `groupby` order and returns the largest defined one |
| Processing.ProcessedFails | Code/Process/process_calibration.py:10-44 | `process_file` fails exactly when a column is missing, the table has no rows, or some weight is not positive (the regression on `ln(weight)` raises); the missing-column error comes first and the regression error last |
| Processing.AtMeanIffFlat | Code/Process/process_calibration.py:47-48 | every voltage equals the mean exactly when all voltages are equal |
| Processing.RunRangesSpec | Code/Process/process_calibration.py:19-61 | the stored weight and voltage ranges are ordered, and the stored span and FSO are non-negative after rounding |
| Processing.RunResolutionSpec | Code/Process/process_calibration.py:35-63 | a run's resolution is NaN exactly when every row has the same weight |
| Processing.RunPrecisionSpec | Code/Process/process_calibration.py:26-62 | a run's precision is NaN exactly when its voltages are flat or no weight occurs twice |
| Processing.RunR2Spec | Code/Process/process_calibration.py:44-64 | a run's R² is NaN exactly when its voltages are flat, and is otherwise at most 1 |
| Processing.ArtefactNames | Code/Process/process_calibration.py:54-74 | each artefact of run `folder/name` is named after the run: its base name without extension, followed by the artefact's suffix |
| Processing.ArtefactsAreRelated | Code/Protocol.py:406-412 | deleting a run with the intended test removes each of the three artefacts processed from it |
| Processing.RunStem | Code/Protocol.py:408 | the base name of run `n` is `calibracion_sensor{s}_{n}` |
| Processing.DeletingRunOneAsWrittenTakesRunTen | Code/Protocol.py:406-412 | as written, deleting run 1 also deletes the artefacts of run 10 |
| Processing.DeletingRunTakesOnlyItsArtefacts | Code/Protocol.py:406-412 | with the intended test, deleting run `n` takes the artefacts of run `m` exactly when `m` is `n` |
| Processing.SortedNames | Code/Process/process_calibration.py:124-130 | `sorted` of a listing holds the same names, each as often |
| Processing.SortedNamesOrdered | Code/Process/process_calibration.py:124-130 | `sorted` of a listing is ordered throughout |
| Processing.RunFilesAreCsv | Code/Process/process_calibration.py:131 | every run file the acquisition writes is processed; ".CSV" is accepted and ".csv.bak" is not |
| Processing.CsvJobsNames | Code/Process/process_calibration.py:130-132 | a folder's calls are its CSV names joined onto the folder, in listing order |
| Processing.FolderJobsSpec | Code/Process/process_calibration.py:128-132 | a sensor folder's CSV files are processed in sorted order, each into the sensor's output folder |
| Processing.SensorFoldersOrdered | Code/Process/process_calibration.py:124-127 | the sensor folders are visited in sorted order |
| Processing.PlanSelects | Code/Process/process_calibration.py:124-132 | `process_file` is called exactly on `sensor/name` where `sensor` is a folder of the data folder and `name` ends in `.csv` in any case, writing into the sensor's output folder |
| Processing.CreatedSpec | Code/Process/process_calibration.py:123-129 | the output folder is made first, then one output folder per sensor folder, in order |
| Processing.ProcessFolder | Code/Process/process_calibration.py:130-132 | the inner loop processes the folder's calls in order until the first failure, which it reports with the sensor's output folder |
| Processing.ProcessSensors | Code/Process/process_calibration.py:124-132 | over the sorted entries of the data folder, the outer loop runs every call of the plan in order and makes every sensor folder's output folder; on the first failure it stops, with the calls before it done and the output folders made up to the failing sensor's |
| Processing.ProcessAll | Code/Process/process_calibration.py:119-132 | without a data folder the batch stops at once; otherwise it finishes with every call of the plan succeeded and every output folder made, or aborts at the first failing call |

## Left out

- The BLE transport is left out: the client, its connection checks, UUIDs and command bytes. So are the exception path of the acquisition (Code/Protocol.py:695-705) and the decoding of notification bytes. Notifications arrive already decoded as events.
- The two-second resend of the sample request is left out, because a resend does not change what the loop collects. Sleeps are event deliveries, not durations.
- Progress callbacks, the GUI and the command-line menus are left out, apart from the number typed at the delete prompt.
- The last sleep of the run, after the weight loop (Code/Protocol.py:683-684), is left out. An event it delivers changes nothing the run returns or writes.
- Acquisition.Session.Run: the source waits forever for a confirmation or a sample that never comes. With a finite event sequence the model returns `Waiting` instead.
- Floating point is left out. Reals are exact, so binary rounding effects of `3.3 / 1023.0` and of the statistics are not modelled.
- The square root inside `std`, the logarithm and `np.polyfit` are parameters. Nothing is proved about the fitted coefficients except through R².
- The sensitivity and regression equation strings, the text of the coefficients file and the plot are left out. Only the paths of the three artefacts are modelled.
- Writing CSV files, and CSV parsing by `pd.read_csv`, are left out. A CSV file is modelled as its header and its numeric `Peso_g` and `Lectura` cells.
- `ensure_sensor_folder` creating the folder is left out. Listings are given as sequences of names.
- Text typed at the delete prompt that is not a number is left out: the number is given as an integer. The source reports such text as an invalid index and changes nothing.
- The sensor id is matched literally in the run pattern, as the ids in use are digits. Regular-expression metacharacters in an id are not modelled.
- `\d` matches ASCII digits only; Python also accepts other Unicode decimal digits.
- `str.lower()` is modelled as ASCII case folding only.
- Statistics.NanMax: NumPy raises on an empty list. The model returns `None`, which a run with at least one row never reaches.

## Findings

| source | as written | input that shows it | evidently intended | confidence | as-written member | corrected member |
|---|---|---|---|---|---|---|
| Code/Protocol.py:90-96 | `re.search(rf"_{sensor}_(\d+)\.csv$", fn)` never matches a listed run name, because the character before the sensor id is the `r` of "sensor" | a folder holding `calibracion_sensor1_1.csv`: the next index is 1 again, and the new run overwrites run 1 | the next index is one past the largest listed index | not executed | CalibrationFiles.NextCalibrationIndexAsWrittenIsOne | CalibrationFiles.NewRunNameIsFresh |
| Code/Protocol.py:406-412 | reports are deleted when `fname.startswith(basename)` | deleting `calibracion_sensor1_1.csv` also deletes `calibracion_sensor1_10_properties.csv` | only names of the form `basename + "_" + ...` are the run's reports | not executed | Processing.DeletingRunOneAsWrittenTakesRunTen | Processing.DeletingRunTakesOnlyItsArtefacts |
| Code/Protocol.py:165-166 | `files[idx-1]` accepts 0 and negative numbers through Python's negative indexing | typing 0 at the delete prompt deletes the last listed run | only the numbers shown, 1 to `len(files)`, select a run | not executed | CalibrationFiles.PickZeroAsWrittenTakesLast | CalibrationFiles.DeleteSelected |
