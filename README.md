# EV battery telemetry QA — a Dafny model

This project models the decision logic of the EV-QA-Framework, a quality-assurance pipeline for electric-vehicle battery telemetry. The model covers five parts:

- **Schema** (`schema.dfy`, module `Schema`). This is `BatteryTelemetryModel` and `validate_telemetry` in `ev_qa_framework/models.py`.
  - A raw record is a map from key to a JSON-like value.
  - Each declared field is checked in order: presence, lax float coercion, the declared length or range, then the field's own validator.
  - A failure lists every failing field.
  - An accepted record becomes a `Telemetry` reading with the identifier upper-cased.
- **Duplicate schema** (`schema_v1.dfy`, module `SchemaV1`). This is `ev_qa_models.py`, written with the older validator decorators. Its validators are modelled as that file states them. Under one shared model of the schema library's coercion and constraint order, it is proved to accept the same records, with the same readings, as the package schema. The library-version behaviour that breaks this agreement is listed under "Left out".
- **Temperature-jump rule** (`jumps.dfy`, module `TempJumps`). This is the first-difference rule that both frameworks' `detect_anomalies` apply: one entry per consecutive pair whose temperatures differ by strictly more than 5 degrees.
- **Analyzer** (`analysis.dfy`, module `Analysis`). This is `EVBatteryAnalyzer` in `ev_qa_analysis.py`.
  - The scaler and isolation forest are one deterministic model function, passed as a parameter.
  - What is modelled is what the analyzer does with that function's output: the stored outlier rows, the summary arithmetic and the severity classes.
- **Package framework** (`framework.dfy`, module `Framework`). This is `EVQAFramework` in `ev_qa_framework/framework.py`. It covers:
  - the 200–900 V safety check;
  - the jump scan, written as a loop;
  - the record loop of `run_test_suite`. The loop writes the default identifier into the caller's records (an `array`), validates each record and counts passes and failures.
  - the report the run stores, including the analysis of the accepted readings.
- **Legacy framework** (`legacy.dfy`, module `LegacyFramework`). This is the older stand-alone `ev_qa_framework.py`. It covers:
  - `BatteryTelemetry` construction from keyword arguments, and `to_dict`;
  - the cell-level 3.0–4.3 V safety check with its charge range;
  - the same jump scan, with the "Sudden temp change" message;
  - a test-suite run in which a record that cannot be constructed aborts the run.

`wrappers.dfy` holds the `Option` and `Result` types.

Divergences the model keeps as the code has them:

- The two frameworks judge voltage on different scales:
  - the package uses a pack envelope of 200–900 V (`ev_qa_framework/framework.py:47`);
  - the older file uses a cell envelope of 3.0–4.3 V (`ev_qa_framework.py:59`).
  - `LegacyFramework.NoReadingPassesBothEnvelopes` proves that no voltage passes both.
  - tests/test_ev_qa.py and tests/test_ev_qa_anomalies.py assert the older behaviour.
  - The package file's own example data, 3.9 V cells (`ev_qa_framework/framework.py:126-130`), pass the schema once the default identifier is injected, and then all fail the package's safety check.
- The package `run_test_suite` never updates `self.telemetry_data`. The model's `RunTestSuite` states that the field is unchanged. The same holds for the older file.
- `check_percentage_range` can never reject. It runs after the `ge`/`le` bounds of `soc` and `soh`, which already reject everything it would. `Schema.ValidatePercent` states this.
- The unused average temperature in both `detect_anomalies`, and the package's `if not temps` branch (unreachable after the length check), have no effect on the output.
- The package file imports its analyzer from a module that is not part of this model. `ev_qa_analysis.py` is modelled in its place.
- A batch report might be expected to count schema rejections apart from safety failures. The package report keeps only `passed` and `failed`, and a schema rejection counts as `failed` (`Framework.CountPartitions`).
- A validation run might be expected to leave its input untouched. The package loop writes the default identifier into the caller's records (`Framework.EVQAFramework.ValidateBatch`).
- A failing record does not abort a package run. In the older file, a record that cannot be constructed raises out of the whole run (`LegacyFramework.BuiltAbortsRun`).
- The older schema file's percentage validator takes the offending field as a second parameter and names it in its error. The field error is the same either way, so the two schemas still agree (`SchemaV1.ValidateTelemetry`).

Boundary properties are stated over exact reals. For example, 60.0 passes and 60.1 fails, and a change of 5.1 is a jump. IEEE rounding of the inputs is not modelled.

## Model

| member | source | states |
|---|---|---|
| Schema.Get | ev_qa_framework/models.py:25-31 | a declared field is present exactly when its key is in the record, and then its value is that key's value |
| Schema.CoercionExamples | tests/test_pydantic_models.py:45-80 | the string "50" coerces to 50.0 and `True` to 1.0 |
| Schema.RejectedCoercionExamples | tests/test_pydantic_models.py:45-80 | free text, null, a list and a dict do not coerce |
| Schema.DigitStringCoerces | ev_qa_framework/models.py:26-30 | every non-empty string of decimal digits coerces to the number it spells |
| Schema.ToFloat | ev_qa_framework/models.py:26-30 | numbers coerce to themselves, booleans to 1.0 and 0.0, and null, lists and dictionaries never coerce; strings follow the decimal grammar whose meaning `DigitStringCoerces`, `SignedDecimalCoerces` and `NonNumericTextRejected` state |
| Schema.SignedDecimalCoerces | ev_qa_framework/models.py:26-30 | a numeral `w.f` (digits on either side, at least one in all) coerces to w + f / 10^|f|, unchanged after a '+' and negated after a '-' |
| Schema.FractionalCoercionExamples | ev_qa_framework/models.py:26-30 | the text "3.95" coerces to 3.95 and "-12.5" to -12.5 |
| Schema.NonNumericTextRejected | ev_qa_framework/models.py:26-30 | a string containing any character other than a digit, '.', '+' or '-' falls outside the model's decimal grammar and does not coerce |
| Schema.ValidateVinFormat | ev_qa_framework/models.py:33-42 | accepts exactly non-empty ASCII-alphanumeric strings with no I, O or Q in either case; returns the upper-cased string; a non-alphanumeric string fails as such, an alphanumeric one as a forbidden letter |
| Schema.ValidateVin | ev_qa_framework/models.py:25-42 | the identifier field is accepted exactly when it is a string of 17 accepted characters; the stored value is the upper-cased input; absence is the `Missing` error |
| Schema.VinNormalisationIdempotent | ev_qa_framework/models.py:42 | re-validating a stored identifier returns it unchanged |
| Schema.VinStaysAccepted | ev_qa_framework/models.py:40-42 | upper-casing an accepted identifier keeps it accepted and is a fixed point |
| Schema.ValidateFloat | ev_qa_framework/models.py:27 | `current` is accepted exactly when present and coercible, with the coerced value and no bound |
| Schema.ValidateBounded | ev_qa_framework/models.py:26-30 | a bounded field is accepted exactly when present, coercible and within its inclusive bounds, keeping the coerced value |
| Schema.NumericErrorKinds | ev_qa_framework/models.py:26-30 | a numeric field reports not-a-number exactly when the value does not coerce, below-minimum exactly when it is under the lower bound, and above-maximum exactly when it is within the lower bound but over the upper |
| Schema.CheckTemperatureSafety | ev_qa_framework/models.py:44-53 | returns its input unchanged; warns exactly above 60 and exactly below 0; never more than one warning |
| Schema.ValidateTemperature | ev_qa_framework/models.py:28-53 | the warning hook changes nothing: the outcome is the [-50, 150] bounds check alone |
| Schema.CheckPercentageRange | ev_qa_framework/models.py:55-61 | accepts exactly values in [0, 100] and returns them unchanged; otherwise the percentage error |
| Schema.ValidatePercent | ev_qa_framework/models.py:29-61 | the percentage validator rejects nothing the [0, 100] bounds let through: the outcome is the bounds check alone |
| Schema.ValidateTimestamp | ev_qa_framework/models.py:31 | a missing timestamp defaults to the ingestion time; the field fails exactly for a value that is neither null, a number nor a string |
| Schema.CheckField | ev_qa_framework/models.py:25-61 | a field yields no error exactly when the record satisfies that field's rule, and at most one error, naming that field |
| Schema.FieldErrors | ev_qa_framework/models.py:25-61 | no errors exactly when every field is acceptable; every reported error names a field the record violates |
| Schema.Build | ev_qa_framework/models.py:25-31 | the reading built from an acceptable record carries the record's values (identifier upper-cased) and satisfies every field invariant |
| Schema.ValidateTelemetry | ev_qa_framework/models.py:79-83 | succeeds exactly when every field is acceptable; a success carries the record's values and is well formed; a failure is non-empty and names only violated fields |
| Schema.FailureNamesEveryViolatedField | ev_qa_framework/models.py:79-83 | every field the record violates appears in the failure |
| Schema.MissingTimestampDefaults | ev_qa_framework/models.py:31 | without a timestamp, an accepted record is stamped with the ingestion time and a failure never names the timestamp |
| Schema.Dump | ev_qa_framework/framework.py:110 | the serialised reading carries the identifier; a given or null timestamp is written, and the symbolic ingestion time is left out |
| Schema.DumpRoundTrip | ev_qa_framework/models.py:25-31 | validating the serialised form of a well-formed reading gives back the same reading |
| Schema.ExampleRecordAccepted | ev_qa_framework/models.py:66-74 | every field of the schema's example record, timestamp string included, is acceptable, and its identifier is already upper case |
| Schema.SchemaExample | ev_qa_framework/models.py:66-74 | the schema's example record is accepted with all its values kept and its timestamp string as the stamp |
| Schema.ExampleFieldsAccepted | tests/test_pydantic_models.py:86-99 | every field of the test's valid record, which has no timestamp, is acceptable |
| Schema.UnstampedExample | tests/test_pydantic_models.py:86-99 | the test's valid record is accepted with its identifier and values kept, stamped with the ingestion time |
| SchemaV1.ValidateVinFormat | ev_qa_models.py:33-41 | accepts exactly non-empty ASCII-alphanumeric strings with no I, O or Q in either case, returning the upper-cased string |
| SchemaV1.ValidateVin | ev_qa_models.py:25-41 | the identifier field is accepted exactly when it is a string of 17 accepted characters, stored upper-cased |
| SchemaV1.CheckTemperatureSafety | ev_qa_models.py:43-51 | returns its input unchanged; warns exactly above 60 and exactly below 0 |
| SchemaV1.CheckPercentageRange | ev_qa_models.py:53-58 | accepts exactly values in [0, 100]; otherwise an error naming the offending field |
| SchemaV1.ValidateTemperature | ev_qa_models.py:28-51 | the outcome is the [-50, 150] bounds check alone |
| SchemaV1.ValidatePercent | ev_qa_models.py:29-58 | the outcome is the [0, 100] bounds check alone |
| SchemaV1.CheckField | ev_qa_models.py:25-58 | each field of this file yields the same error as the package schema's field |
| SchemaV1.Build | ev_qa_models.py:76-102 | the reading this file's validators build from an acceptable record is the package schema's reading |
| SchemaV1.ValidateTelemetry | ev_qa_models.py:76-102 | accepts exactly the records the package schema accepts, with the same reading or the same failure |
| SchemaV1.DocumentedExample | ev_qa_models.py:89-100 | the documented example is accepted with voltage 396.5 and its identifier kept |
| SchemaV1.InvalidRecordFailures | ev_qa_models.py:122-133 | the invalid example's identifier is too short, its voltage above 1000 and its charge above 100 |
| SchemaV1.InvalidRecordPasses | ev_qa_models.py:122-133 | the invalid example's current, temperature, health and (absent) timestamp raise nothing |
| SchemaV1.InvalidExample | ev_qa_models.py:122-133 | the invalid example fails on the identifier (too short), the voltage (above 1000) and the charge (above 100), in that order |
| TempJumps.Abs | ev_qa_framework/framework.py:69 | the absolute value: non-negative and equal to the input or its negation |
| TempJumps.Scan | ev_qa_framework/framework.py:68-71 | every entry carries the framework's prefix and a change strictly above 5; at most one entry per consecutive pair |
| TempJumps.JumpIndices | ev_qa_framework/framework.py:68-70 | the positions where the rule fires: exactly the i with a change above 5, in increasing order |
| TempJumps.ScanReportsEachJump | ev_qa_framework/framework.py:68-71 | exactly one entry per firing position, in increasing order, carrying that pair's change |
| TempJumps.ShortSeriesHasNoAnomalies | ev_qa_framework/framework.py:57-58 | fewer than two readings give no entries |
| TempJumps.ScanIgnoresDirection | ev_qa_framework/framework.py:69-70 | mirroring every reading, so that rises become drops, leaves the entries unchanged |
| TempJumps.BoundaryExamples | tests/test_ev_qa_anomalies.py:23-41 | a change of exactly 5 is not reported, 5.1 is, and a drop of 7 is reported like a rise |
| TempJumps.SeriesExamples | tests/test_ev_qa_anomalies.py:23-41 | a gradual rise reports nothing; a series with two jumps reports both, in order, with their changes |
| Analysis.FeaturesOf | ev_qa_analysis.py:33 | the model sees voltage, current and temperature of each row, in order |
| Analysis.MinScore | ev_qa_analysis.py:53-55 | the minimum score: below or equal to every score, and one of them |
| Analysis.AssessSeverity | ev_qa_analysis.py:49-57 | critical exactly when some score is below -0.8; warning exactly when none is but some is below -0.5; info exactly when none is below -0.5 |
| Analysis.SeverityMonotone | ev_qa_analysis.py:53-57 | lowering any scores never gives a less severe class |
| Analysis.OutlierPositions | ev_qa_analysis.py:36-40 | exactly the positions labelled -1, increasing |
| Analysis.Select | ev_qa_analysis.py:40 | the rows at the given positions, in that order |
| Analysis.Outliers | ev_qa_analysis.py:40 | the stored rows are exactly the rows labelled -1, one per label, in frame order |
| Analysis.Summarize | ev_qa_analysis.py:42-47 | total = number of rows; detected = number labelled -1, at most the total; percentage = detected / total * 100, within [0, 100]; severity from the scores |
| Analysis.PercentageInRange | ev_qa_analysis.py:45 | a count of at most the total, over a non-empty total, is a percentage in [0, 100] |
| Analysis.SummaryIgnoresSocAndSoh | ev_qa_analysis.py:33 | frames that agree on voltage, current and temperature get the same summary |
| Analysis.EVBatteryAnalyzer.constructor | ev_qa_analysis.py:17-20 | stores the contamination and seed 42; no anomalies before the first analysis |
| Analysis.EVBatteryAnalyzer.AnalyzeTelemetry | ev_qa_analysis.py:22-47 | returns the summary of the model's output on the frame and stores the outlier rows |
| Framework.PassesSafety | ev_qa_framework/framework.py:38-51 | passes exactly when temperature is at most 60 and voltage lies in [200, 900] |
| Framework.SafetyLimits | tests/test_ev_qa_limits.py:13-40 | 60.0, -20, 200.0 and 900.0 pass; 60.1, 199.9 and 900.1 fail |
| Framework.SafetyIgnoresOtherFields | ev_qa_framework/framework.py:38-51 | readings that agree on temperature and voltage get the same verdict |
| Framework.InjectVin | ev_qa_framework/framework.py:88-89 | after injection the record has `vin`: its own if it had one, otherwise the default identifier; no other key is added or removed |
| Framework.InjectVinKeepsRecord | ev_qa_framework/framework.py:88-89 | injection adds only `vin`, keeps every existing value, leaves a record that has `vin` unchanged, and otherwise writes the default identifier |
| Framework.InjectAll | ev_qa_framework/framework.py:86-89 | each record of the batch, injected, in order |
| Framework.DefaultVinIsAccepted | ev_qa_framework/framework.py:29 | the default identifier satisfies the identifier rule and is already upper case, so an injected record never fails on `vin` |
| Framework.Verdicts | ev_qa_framework/framework.py:91-93 | the schema's verdict on each record, in order |
| Framework.Partly | ev_qa_framework/framework.py:86-89 | the batch part-way through the loop keeps the batch's length; before the loop it is the batch, after it the injected batch, and the next record is still as given |
| Framework.PartlyMeaning | ev_qa_framework/framework.py:86-89 | part-way through the loop, the records before the position are injected and the rest are as given |
| Framework.PartlyStep | ev_qa_framework/framework.py:88-89 | injecting the next record advances the part-way batch by one |
| Framework.VerdictsStep | ev_qa_framework/framework.py:91-93 | the verdicts on one more record are the earlier verdicts followed by that record's verdict |
| Framework.Count | ev_qa_framework/framework.py:96-102 | neither counter exceeds the number of records; the exact split is stated by `CountPartitions` |
| Framework.Accepted | ev_qa_framework/framework.py:94 | the accepted readings are no more than the verdicts |
| Framework.AppendVerdict | ev_qa_framework/framework.py:91-102 | one more record appends its reading if accepted, and moves exactly one counter: passed if accepted and safe, failed otherwise |
| Framework.CountPartitions | ev_qa_framework/framework.py:96-102 | passed + failed = number of records; passed = accepted and safe; failed = rejected + accepted but unsafe |
| Framework.NoneAcceptedIffAllRejected | ev_qa_framework/framework.py:108 | no reading is accepted exactly when every record is rejected |
| Framework.AcceptedComeFromVerdicts | ev_qa_framework/framework.py:93-94 | each accepted reading is the verdict on some record |
| Framework.AcceptedKeepsEveryReading | ev_qa_framework/framework.py:93-94 | conversely, the reading of every accepted record is kept |
| Framework.AcceptedConcat | ev_qa_framework/framework.py:88-94 | the readings kept from a batch are those kept from its first part followed by those kept from the rest, so they keep the batch's order |
| Framework.AcceptedAreWellFormed | ev_qa_framework/framework.py:93-94 | under the package schema, every kept reading satisfies the schema's invariants |
| Framework.Temps | ev_qa_framework/framework.py:61 | the temperatures of the readings, in order |
| Framework.Frame | ev_qa_framework/framework.py:110-111 | one analyzer row per accepted reading, in order, with `temperature` as `temp` |
| Framework.ExpectedReport | ev_qa_framework/framework.py:75-117 | total = batch size = passed + failed; passed = accepted and safe; anomalies = the scan over accepted readings in input order; no analysis exactly when every record is rejected, otherwise the analyzer's summary of the model's labels and scores on the frame of accepted readings |
| Framework.InjectedRecordAccepted | ev_qa_framework/framework.py:88-93 | any record without an identifier whose other fields are all acceptable is accepted after injection, with the default identifier and its own voltage and temperature |
| Framework.InjectedReadingAccepted | ev_qa_framework/framework.py:88-93 | the fixed family of records at 390 V, 120 A, 80 % charge and 96 % health, at any temperature in [-50, 150], is accepted after injection with exactly those values |
| Framework.EVQAFramework.constructor | ev_qa_framework/framework.py:31-36 | stores the name, empty data, no results, the schema check and a fresh analyzer with contamination 0.1 and seed 42 |
| Framework.EVQAFramework.DetectAnomalies | ev_qa_framework/framework.py:53-73 | the loop returns exactly the scan of the samples' temperatures |
| Framework.EVQAFramework.ValidateBatch | ev_qa_framework/framework.py:85-102 | the caller's records end up injected; the kept readings are the accepted verdicts in order; the counters are those of the verdicts |
| Framework.EVQAFramework.RunTestSuite | ev_qa_framework/framework.py:75-117 | returns and stores the expected report of the injected batch; the data attribute is untouched; the analyzer's stored outliers are those of the accepted readings, and unchanged when none was accepted |
| LegacyFramework.Construct | ev_qa_framework.py:23-30 | succeeds exactly with the five keywords; stores them unchanged and stamps the clock reading; unknown keywords, otherwise missing ones, are reported with their names |
| LegacyFramework.ToDict | ev_qa_framework.py:32-40 | the dictionary has exactly the five readings and the timestamp |
| LegacyFramework.ConstructThenDump | ev_qa_framework.py:23-40 | dumping a constructed object gives back every argument and the stamp |
| LegacyFramework.DumpThenConstruct | ev_qa_framework.py:23-40 | constructing from the numbers of a dump rebuilds the same object |
| LegacyFramework.PassesSafety | ev_qa_framework.py:52-67 | passes exactly when temperature is at most 60, voltage in [3.0, 4.3] and charge in [0, 100] |
| LegacyFramework.SafetyExamples | tests/test_ev_qa.py:53-76 | the test readings: the nominal one passes; 65 degrees, 2.5 V, 4.5 V and 105 % fail; the limits and a negative current pass |
| LegacyFramework.SafetyIgnoresCurrentAndSoh | ev_qa_framework.py:52-67 | readings that agree on temperature, voltage and charge get the same verdict |
| LegacyFramework.NoReadingPassesBothEnvelopes | ev_qa_framework.py:59 | no voltage passes both this check and the package's |
| LegacyFramework.Temps | ev_qa_framework.py:77 | the temperatures of the objects, in order |
| LegacyFramework.Built | ev_qa_framework.py:97-100 | a built batch has one object per record |
| LegacyFramework.BuiltMeaning | ev_qa_framework.py:97-100 | the batch builds exactly when every record has exactly the five keywords, then each object is its record's; otherwise the error is that of the first record that does not build |
| LegacyFramework.BuiltStep | ev_qa_framework.py:98-100 | building one more record keeps an earlier error, or adds the record's error or object |
| LegacyFramework.BuiltAbortsRun | ev_qa_framework.py:99 | once a prefix fails to build, the whole batch fails with the same error |
| LegacyFramework.BuildsAll | ev_qa_framework.py:97-100 | a batch whose every record constructs builds to exactly those objects |
| LegacyFramework.CountSafe | ev_qa_framework.py:102-105 | the passing count is at most the number of objects |
| LegacyFramework.CountSafeStep | ev_qa_framework.py:102-105 | one more object raises the passing count exactly when it passes |
| LegacyFramework.CountSafeIsCardinality | ev_qa_framework.py:102-105 | the passing count is the number of positions whose object passes |
| LegacyFramework.ExpectedReport | ev_qa_framework.py:88-110 | a run completes exactly when the batch builds; then total = batch size = passed + failed, passed = objects that pass, anomalies = the scan over all objects; otherwise the build error |
| LegacyFramework.PassedCountsSafeRecords | ev_qa_framework.py:90-105 | of a completed run, passed counts the records that pass and failed the rest |
| LegacyFramework.RunOfObjects | ev_qa_framework.py:88-110 | a run whose batch builds to given objects reports their count, their passing count, the rest as failed, and their jumps |
| LegacyFramework.Reading | ev_qa_framework.py:23-30 | five keyword arguments that construct the object with those values |
| LegacyFramework.ExampleObjects | ev_qa_framework.py:119-123 | the objects of the file's example batch all pass, and only the 36-to-45 step is a jump, of 9 degrees |
| LegacyFramework.ExampleRun | ev_qa_framework.py:119-123 | the file's example batch: 3 tests, 3 passed, 0 failed, one jump of 9 degrees |
| LegacyFramework.MixedObjects | tests/test_ev_qa.py:112-120 | of the mixed test objects one passes, and there is no jump |
| LegacyFramework.MixedRun | tests/test_ev_qa.py:112-120 | the mixed test batch: 1 passed, 1 failed, no jumps |
| LegacyFramework.MisspeltKeyAborts | ev_qa_framework.py:99 | a record with an unknown keyword aborts the run naming that keyword |
| LegacyFramework.EVQAFramework.constructor | ev_qa_framework.py:46-50 | stores the name, empty data and no results |
| LegacyFramework.EVQAFramework.DetectAnomalies | ev_qa_framework.py:69-86 | the loop returns exactly the scan of the objects' temperatures, with this file's prefix |
| LegacyFramework.EVQAFramework.BuildAndCount | ev_qa_framework.py:97-105 | the loop builds what `Built` builds, and its counters are the passing and failing objects |
| LegacyFramework.EVQAFramework.RunTestSuite | ev_qa_framework.py:88-110 | returns the expected outcome; a completed run stores its report, an aborted one leaves the stored results as they were; the data attribute is untouched |

## Left out

- Logging and printed diagnostics: side effects only. The temperature warnings are returned as values instead.
- The `async` on both `run_test_suite` methods: nothing is awaited, so they are ordinary methods.
- The pandas frame: the analyzer rows keep voltage, current, temperature, charge and health. The identifier and timestamp columns, which the analyzer never reads, are dropped.
- Standardisation and isolation-forest fitting and scoring: foreign floating-point code. They are one deterministic function of contamination, seed and feature rows, which returns a label in {1, -1} and a score per row.
- Whether a contamination value is legal for the forest: the constructor stores any value.
- Analysis.EVBatteryAnalyzer.AnalyzeTelemetry: requires a non-empty frame. On an empty frame the scaler raises, and the percentage would divide by zero; that failure is not modelled. Its only caller, `run_test_suite`, calls it only when some reading was accepted (ev_qa_framework/framework.py:108).
- IEEE-754 floating point: readings are exact reals.
- Python `str.isalnum` also accepts non-ASCII letters and digits. The model accepts ASCII letters and digits only.
- Schema.NonNumericTextRejected: the schema library also coerces exponent forms such as "1e3", "inf", "nan" and numbers padded with whitespace, which this lemma calls non-coercing.
- Schema.ToFloat: for strings, the model parses an optional sign and digits with at most one decimal point. Surrounding whitespace, underscores, exponents, `inf` and `nan` are not modelled.
- Schema.ValidateTimestamp: a given number or string is kept as raw; datetime parsing and its failures are not modelled. The default factory's clock is the symbolic `Now`.
- Differences between the two major versions of the schema library: both schema files share one model of coercion and constraint order.
- SchemaV1.ValidateTelemetry: the agreement with the package schema holds only under that shared model. The package schema imports `field_validator`, so it needs the 2.x library (ev_qa_framework/models.py:6). Under 2.x, the `field` parameter of `check_percentage_range` (ev_qa_models.py:53-54) makes the class definition itself fail, so ev_qa_models.py validates nothing. Under 1.x, where that file loads, a numeric `vin` is coerced to a string, while the package schema rejects it.
- Schema.Dump: `model_dump` always writes a `timestamp` key, holding the default factory's datetime or None. The ingestion time `Now` is symbolic and has no value to write, so `Dump` leaves the key out for it. `DumpRoundTrip` relies on this to give back `Now`.
- The package loop writes into the caller's dictionaries. If the same dictionary appears twice in the batch, the two array cells are one object in Python but independent values here.
- Legacy records are maps from name to real. Non-numeric values, and the type errors they would cause later, are not modelled.
- LegacyFramework.Construct: for unexpected keywords Python names only the first one it meets, in call order, while the model reports the set of all of them. For missing arguments Python lists every missing name, as the model's set does; the order and wording of the message are not modelled.
- The clock of the legacy constructor: a caller-supplied function from record position to instant.
- Message text beyond the prefix: an anomaly entry is its prefix and the change, not the formatted number with its unit.
- Framework.EVQAFramework.constructor: the schema check is a constant function value fixed to `Schema.ValidateTelemetry` by the constructor, and the run methods apply that value.
- The diagnosis script `test_tesla_battery.py` is CSV and JSON input and output. Dashboard, API, command line, emulator, demo, packaging and re-export files are interfaces around the core and are not part of this model.
