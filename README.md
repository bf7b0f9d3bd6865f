# WorkoutTracker core in Dafny

This project models the data layer of the WorkoutTracker iOS app, a strength-training log. It covers the following parts:

- **Templates.** A user builds a *program*, which is an ordered list of *workout days* made of *exercises*. A program can be deep-copied with fresh ids.
- **Workout logs.** A *workout log* is created from a day template. Each log holds *exercise logs*, and each exercise log holds *set logs*.
- **Personal records.** A personal record (PR) is kept per user and exercise. A new lift is a PR when it has more weight than the current best, or the same weight and more reps.
- **Sessions and the exercise library.** *Sessions* (with *session exercises*) and library exercises are encoded to and decoded from documents as well.
- **The store.** `FirestoreManager` saves, deletes and reads these records. It also answers these queries:
  - the best PR;
  - the last performance of an exercise;
  - a weight-progress series;
  - volume and workout counts over a date range.
- **CSV export.** `ExportManager` turns logs and records into CSV text.

How the model represents the system:

- **Documents.** A Firestore document (`[String: Any]`) is a `Document.Doc`. That is a `map<string, Value>` whose values carry their Swift type. So every `as? String`, `as? Int`, `as? Double`, `as? Bool`, `as? Date`, `as? [[String: Any]]` cast is a check on that type.
- **Encoders and decoders.** Each `firestoreData` is an encoder function. Each `init?(from:)` is a decoder returning `Option`. Every pair except the library exercise's is proved to round-trip, and each decoder's defaults are stated. The library exercise loses its `createdAt` on the way (`LibraryExercises.RoundTripLosesCreatedAt`, see "## Findings").
- **Collections.** The Firestore collections are fields of the `FirestoreManagers.FirestoreManager` class, and its save and delete methods update them in place. The queries read an in-memory list of stored documents or decoded logs.
- **Sorting.** The client-side sorts of logs are a verified insertion sort (`Seqs.SortBy`). In `getPersonalRecord` only the first element of the sorted records is used, so that `sorted { … }.first` is a maximum scan (`FirestoreManagers.Best`).
- **Loops.** The loops of `getExerciseProgress` and of the two CSV exporters are `for` loops, proved equal to specification functions.
- **Clock, ids and formatting.** The clock (`Date()`), `UUID()` and the date and number printers are parameters.

Dates are whole instants (`int`). Weights and durations are `real`. Swift's `Int(Double)` truncates toward zero (`Text.Trunc`). Swift's integer `/` and `%` truncate too (`Text.TruncDiv`, `Text.TruncRem`).

## Model

| member | source | states |
|---|---|---|
| Exercises.ParseWeightUnit | WorkoutTracker/Models/Exercise.swift:54-56 | `WeightUnit(rawValue:)` succeeds only on a raw value, and returns the case with that raw value |
| Exercises.WeightUnitRawValues | WorkoutTracker/Models/Exercise.swift:54-60 | the raw values are "lbs" and "kg"; distinct units have distinct raw values; parsing a unit's raw value gives the unit back |
| Exercises.DecodeWeightUnit | WorkoutTracker/Models/Exercise.swift:101-106 | a `weightUnit` that is missing or not a known raw value decodes as pounds; a known raw value decodes to its own unit |
| Exercises.FormattedTargetShowsWeight | WorkoutTracker/Models/Exercise.swift:39-45 | the target text has an "@ weight" part exactly when the target weight is positive |
| Exercises.FormattedTargetParses | WorkoutTracker/Models/Exercise.swift:39-45 | split at spaces, the target text is six words when the target weight is positive (sets, "×", reps, "@", the truncated weight, the unit's raw value) and otherwise three (sets, "×", reps), and the sets, reps, weight and unit each parse back to the exercise's own values |
| Exercises.Decode | WorkoutTracker/Models/Exercise.swift:86-107 | decoding succeeds iff `id` and `name` are strings, and keeps them |
| Exercises.EncodeKeys | WorkoutTracker/Models/Exercise.swift:72-84 | the document has exactly the nine exercise keys |
| Exercises.RoundTrip | WorkoutTracker/Models/Exercise.swift:72-107 | decoding an encoded exercise gives the exercise back |
| Exercises.DecodeDefaults | WorkoutTracker/Models/Exercise.swift:94-106 | a document with only id and name decodes with 3 sets, 10 reps, weight 0, pounds, empty notes, order 0 and 60 s rest |
| WorkoutDays.SumTargetSetsAppend | WorkoutTracker/Models/WorkoutDay.swift:27-29 | the sum of target sets over a concatenation is the sum of the parts |
| WorkoutDays.TotalSetsBounds | WorkoutTracker/Models/WorkoutDay.swift:27-29 | with non-negative targets, `totalSets` is non-negative and at least each exercise's target |
| WorkoutDays.Decode | WorkoutTracker/Models/WorkoutDay.swift:49-65 | decoding succeeds iff `id` and `name` are strings; the exercises are the decodable members of the `exercises` array |
| WorkoutDays.EncodeKeys | WorkoutTracker/Models/WorkoutDay.swift:39-47 | the document has exactly keys id, name, exercises, order and notes |
| WorkoutDays.ExercisesRoundTrip | WorkoutTracker/Models/WorkoutDay.swift:43-64 | the encoded exercise list decodes back to the day's exercises |
| WorkoutDays.RoundTrip | WorkoutTracker/Models/WorkoutDay.swift:39-65 | decoding an encoded day gives the day back |
| WorkoutDays.DecodeDefaults | WorkoutTracker/Models/WorkoutDay.swift:55-64 | a document with only id and name decodes to a day with no exercises, order 0 and empty notes |
| Programs.CopyDay | WorkoutTracker/Models/Program.swift:40-48 | a copied day has the new id, and every exercise keeps all its fields except the id, which is replaced by its fresh one |
| Programs.Copy | WorkoutTracker/Models/Program.swift:33-51 | the copy has the new id and user and both stamps at the copy time; name and description are kept; day by day and exercise by exercise, only the ids change |
| Programs.CopyKeepsStructure | WorkoutTracker/Models/Program.swift:33-51 | with ids blanked the copy's days equal the original's; every nested id in the copy is one of the fresh ids |
| Programs.CopyHasFreshIds | WorkoutTracker/Models/Program.swift:39-49 | when the fresh ids are not already used in the original, the copy shares no nested id with it |
| Programs.Decode | WorkoutTracker/Models/Program.swift:76-107 | decoding succeeds iff id, userId and name are strings; they are kept, and the days are the decodable members of `days` |
| Programs.EncodeKeys | WorkoutTracker/Models/Program.swift:63-73 | the document has exactly the seven program keys |
| Programs.DaysRoundTrip | WorkoutTracker/Models/Program.swift:69-93 | the encoded day list decodes back to the program's days |
| Programs.RoundTrip | WorkoutTracker/Models/Program.swift:63-107 | decoding an encoded program gives the program back, whatever the decoding time |
| Programs.DecodeDefaults | WorkoutTracker/Models/Program.swift:76-107 | a document with only id, userId and name decodes with empty description, no days, and both dates at the decoding time |
| PersonalRecords.EpleyExamples | WorkoutTracker/Models/PersonalRecord.swift:40-45 | 150 × 10 gives 200, one rep gives the weight itself, and 0 reps also gives the weight |
| PersonalRecords.EpleyBounds | WorkoutTracker/Models/PersonalRecord.swift:40-45 | for non-negative inputs the estimate is at least the weight; for a positive weight it equals the weight iff reps ≤ 1; it grows with reps (from 1) and with weight |
| PersonalRecords.FormattedRecordParses | WorkoutTracker/Models/PersonalRecord.swift:35-37 | the text splits at spaces into four parts: the truncated weight, the unit, "×" and the reps, each parsing back |
| PersonalRecords.Encode | WorkoutTracker/Models/PersonalRecord.swift:50-64 | `workoutLogId` is written exactly when the record has one |
| PersonalRecords.Decode | WorkoutTracker/Models/PersonalRecord.swift:66-94 | decoding succeeds iff id, userId, exerciseName are strings, weight is a Double and reps an Int; each is kept, and the unit follows the unit rule |
| PersonalRecords.RoundTrip | WorkoutTracker/Models/PersonalRecord.swift:50-94 | decoding an encoded record gives it back |
| PersonalRecords.DecodeRejectsIntWeight | WorkoutTracker/Models/PersonalRecord.swift:70 | a weight stored as an integer makes the record undecodable |
| PersonalRecords.DecodeDefaults | WorkoutTracker/Models/PersonalRecord.swift:80-93 | a record with only the required fields decodes as pounds, with no log id, achieved at the decoding time |
| PersonalRecords.PointEstimated1RM | WorkoutTracker/Models/PersonalRecord.swift:129-134 | a progress point's estimate equals the estimate of any record with the same weight and reps |
| PersonalRecords.MaxPointWeight | WorkoutTracker/Models/PersonalRecord.swift:103-105 | the maximum is the weight of some point and no point weighs more |
| PersonalRecords.MaxWeight | WorkoutTracker/Models/PersonalRecord.swift:103-105 | `maxWeight` is 0 for no points, and otherwise the largest point weight, which some point has |
| PersonalRecords.ProgressFacts | WorkoutTracker/Models/PersonalRecord.swift:103-118 | the latest weight never exceeds the maximum; fewer than two points, or a first weight that is not positive, give 0 %; with a positive first weight, the percentage is positive iff the latest weight exceeds the first, and zero iff they are equal |
| WorkoutLogs.NewSetLog | WorkoutTracker/Models/WorkoutLog.swift:148-172 | a set keeps every argument, except that a weight ≤ 0 is replaced by the target weight |
| WorkoutLogs.FormattedSetParses | WorkoutTracker/Models/WorkoutLog.swift:180-185 | the text starts with the reps; with a positive weight it reads "reps × weight unit", each part parsing back; otherwise it reads "reps reps" |
| WorkoutLogs.SumVolumesAppend | WorkoutTracker/Models/WorkoutLog.swift:106-108 | an exercise's volume over a concatenation of sets is the sum of the parts |
| WorkoutLogs.SumVolumesNonNegative | WorkoutTracker/Models/WorkoutLog.swift:175-177 | sets with non-negative reps and weights have non-negative total volume |
| WorkoutLogs.BestSet | WorkoutTracker/Models/WorkoutLog.swift:111-113 | `bestSet` is nil iff there are no sets; otherwise it is one of the sets and none is heavier |
| WorkoutLogs.BestSetIsFirst | WorkoutTracker/Models/WorkoutLog.swift:111-113 | the best set is the first set of maximal weight: every earlier set is strictly lighter |
| WorkoutLogs.ExerciseLogFrom | WorkoutTracker/Models/WorkoutLog.swift:116-131 | the log refers to the exercise and keeps its name and order; it has one idle set per target set, numbered from 1, carrying the targets and the unit |
| WorkoutLogs.SumExerciseVolumesAppend | WorkoutTracker/Models/WorkoutLog.swift:48-50 | a log's volume over a concatenation of exercises is the sum of the parts |
| WorkoutLogs.CountCompletedBound | WorkoutTracker/Models/WorkoutLog.swift:143 | the completed sets never outnumber the sets; they are equal iff every set is completed |
| WorkoutLogs.TotalSetsCountsEverySet | WorkoutTracker/Models/WorkoutLog.swift:53-55 | `totalSetsCompleted` counts every stored set: it is at least the number marked completed, with equality iff all are completed |
| WorkoutLogs.FormattedDurationMeaning | WorkoutTracker/Models/WorkoutLog.swift:58-65 | the text is "Hh Mm" or "Mm" for the whole hours and remaining minutes of the truncated duration (M < 60); it holds an "h" iff the truncated duration is at least 3600 seconds |
| WorkoutLogs.WorkoutLogFrom | WorkoutTracker/Models/WorkoutLog.swift:68-77 | a log from a day refers to the day and the optional program, starts now, is not completed, and holds one exercise log per template exercise in order |
| WorkoutLogs.SkeletonTotals | WorkoutTracker/Models/WorkoutLog.swift:68-77 | a fresh log counts as many sets as the day's `totalSets`, none completed, and zero volume |
| WorkoutLogs.SkeletonEstimatedVolume | WorkoutTracker/Models/WorkoutLog.swift:116-131 | the target volume of a fresh exercise log equals the template's `estimatedVolume` |
| WorkoutLogs.EncodeSet | WorkoutTracker/Models/WorkoutLog.swift:287-306 | `rpe` and `previousPerformance` are written exactly when present |
| WorkoutLogs.DecodeSet | WorkoutTracker/Models/WorkoutLog.swift:308-331 | decoding succeeds iff id is a string and setNumber an Int, and keeps both |
| WorkoutLogs.SetRoundTrip | WorkoutTracker/Models/WorkoutLog.swift:287-331 | decoding an encoded set gives it back |
| WorkoutLogs.DecodeSetDefaults | WorkoutTracker/Models/WorkoutLog.swift:314-330 | a set document with only id and setNumber decodes with 10 target reps, zero weights and reps, pounds, not completed, not a PR |
| WorkoutLogs.EncodeExercise | WorkoutTracker/Models/WorkoutLog.swift:252-264 | `exerciseId` is written exactly when present |
| WorkoutLogs.DecodeExercise | WorkoutTracker/Models/WorkoutLog.swift:266-283 | decoding succeeds iff id and name are strings; the sets are the decodable members of `completedSets` |
| WorkoutLogs.ExerciseRoundTrip | WorkoutTracker/Models/WorkoutLog.swift:252-283 | decoding an encoded exercise log gives it back |
| WorkoutLogs.Encode | WorkoutTracker/Models/WorkoutLog.swift:190-216 | programId, dayId, completedAt and rating are written exactly when present |
| WorkoutLogs.Decode | WorkoutTracker/Models/WorkoutLog.swift:218-248 | decoding succeeds iff id, userId and dayName are strings; the exercises are the decodable members of `exercises` |
| WorkoutLogs.RoundTrip | WorkoutTracker/Models/WorkoutLog.swift:190-248 | decoding an encoded log gives it back, whatever the decoding time |
| WorkoutLogs.DecodeDefaults | WorkoutTracker/Models/WorkoutLog.swift:225-247 | a document with only the required fields decodes with no program, no day id, no exercises, start at the decoding time, zero duration, empty notes and no rating |
| Sessions.FrequencyText | WorkoutTracker/Models/Session.swift:28-31 | there is a frequency text iff a frequency is set |
| Sessions.FrequencyTextParses | WorkoutTracker/Models/Session.swift:28-31 | the text is "Recommended " and "×/week" around a number that parses back to the frequency |
| Sessions.Encode | WorkoutTracker/Models/Session.swift:35-49 | the frequency is written exactly when set |
| Sessions.Decode | WorkoutTracker/Models/Session.swift:51-72 | decoding succeeds iff id and name are strings; exercises are the decodable members of `exercises`; the frequency is the stored Int if any |
| Sessions.RoundTrip | WorkoutTracker/Models/Session.swift:35-72 | decoding an encoded session gives it back |
| Sessions.DecodeDefaults | WorkoutTracker/Models/Session.swift:57-62 | a document with only id and name decodes with empty description, no exercises, order 0 and no frequency |
| SessionExercises.Encode | WorkoutTracker/Models/SessionExercise.swift:39-58 | targetWeight and restTime are written exactly when present |
| SessionExercises.Decode | WorkoutTracker/Models/SessionExercise.swift:60-80 | decoding succeeds iff the id, library id and name are strings and the target sets and reps are Ints; these are kept, and the optional weight and rest are the stored Doubles |
| SessionExercises.RoundTrip | WorkoutTracker/Models/SessionExercise.swift:39-80 | decoding an encoded session exercise gives it back |
| SessionExercises.DecodeDefaults | WorkoutTracker/Models/SessionExercise.swift:69-79 | with only the required fields, there is no weight and no rest, notes are empty and order is 0 |
| LibraryExercises.ParseMuscleGroup | WorkoutTracker/Models/LibraryExercise.swift:12-21 | parsing succeeds only on a raw value, and returns that group |
| LibraryExercises.MuscleGroupRawValues | WorkoutTracker/Models/LibraryExercise.swift:12-21 | there are eight groups with distinct raw values, each parsing back to its group |
| LibraryExercises.Encode | WorkoutTracker/Models/LibraryExercise.swift:33-41 | `createdAt` is written as a Timestamp |
| LibraryExercises.Decode | WorkoutTracker/Models/LibraryExercise.swift:43-55 | decoding succeeds iff id and name are strings, the muscle group is a known raw value and isCustom a Bool; createdAt is the stored Date, else the decoding time |
| LibraryExercises.DecodeRejects | WorkoutTracker/Models/LibraryExercise.swift:46-48 | an unknown muscle group, or a missing isCustom, makes the document undecodable |
| LibraryExercises.RoundTripLosesCreatedAt | WorkoutTracker/Models/LibraryExercise.swift:39-52 | as written, an encoded exercise decodes with createdAt replaced by the decoding time, so the round trip holds only when the two coincide |
| LibraryExercises.GetInstant | WorkoutTracker/Models/LibraryExercise.swift:52 | reads a stored instant whether it is a Date or a Timestamp |
| LibraryExercises.DecodeCorrected | WorkoutTracker/Models/LibraryExercise.swift:43-55 | accepts exactly the documents the original decoder accepts and agrees with it on every field but createdAt, which it also reads from a Timestamp |
| LibraryExercises.RoundTripCorrected | WorkoutTracker/Models/LibraryExercise.swift:33-55 | with the corrected decoder, an encoded library exercise decodes back to itself |
| Document.PutIfPresent | WorkoutTracker/Models/WorkoutLog.swift:202-213 | `if let x { data[k] = x }`: the key is present afterwards iff it was before or the value is present, and the map is unchanged for an absent value |
| Document.DictsOf | WorkoutTracker/Models/WorkoutLog.swift:243 | `as? [[String: Any]]` succeeds iff every element is a dictionary, and then gives those dictionaries in order |
| Document.ChildrenRoundTrip | WorkoutTracker/Models/WorkoutLog.swift:243-244 | a list of encoded children, each of which round-trips, decodes back to the list |
| Document.ChildrenDropMalformed | WorkoutTracker/Models/WorkoutLog.swift:243-247 | one non-dictionary element empties the list; otherwise the undecodable children are dropped and the rest come from the stored documents |
| Text.Trunc | WorkoutTracker/Models/Exercise.swift:41 | `Int(x)` is the integer nearest to x toward zero |
| Csv.Escape | WorkoutTracker/Utilities/ExportManager.swift:212-217 | a field with no comma, quote or newline is unchanged; otherwise it is wrapped in quotes with inner quotes doubled |
| Csv.EscapeRoundTrip | WorkoutTracker/Utilities/ExportManager.swift:212-217 | unescaping an escaped field gives the field back |
| Csv.ParseJoinEscaped | WorkoutTracker/Utilities/ExportManager.swift:25-36 | a row of escaped fields joined by commas parses back, with this project's record reader `Csv.ParseRecord`, to exactly those fields |
| Export.SetRowsCount | WorkoutTracker/Utilities/ExportManager.swift:24 | an exercise contributes one row per completed set, and each row is the row of one of its completed sets |
| Export.ExerciseRowsCount | WorkoutTracker/Utilities/ExportManager.swift:23-24 | a log contributes as many rows as its completed sets |
| Export.LogRowsCount | WorkoutTracker/Utilities/ExportManager.swift:19-24 | the export has one row per completed set over all logs |
| Export.AppendSetRows | WorkoutTracker/Utilities/ExportManager.swift:24-39 | the inner loop appends exactly the lines of the exercise's completed sets |
| Export.AppendExerciseRows | WorkoutTracker/Utilities/ExportManager.swift:23-40 | the middle loop appends exactly the lines of the log's exercises |
| Export.ExportLogsToCsv | WorkoutTracker/Utilities/ExportManager.swift:16-44 | the CSV is the header followed by one line per completed set, log by log, exercise by exercise |
| Export.ExportRecordsToCsv | WorkoutTracker/Utilities/ExportManager.swift:47-63 | the CSV is the header followed by one line per record |
| Export.RecordRowsShape | WorkoutTracker/Utilities/ExportManager.swift:50-60 | there is one row per record, in order, each that record's row |
| Export.NumberNeedsNoQuoting | WorkoutTracker/Utilities/ExportManager.swift:29-30 | a printed integer never needs quoting |
| Export.DurationNeedsNoQuoting | WorkoutTracker/Utilities/ExportManager.swift:34 | a formatted duration never needs quoting |
| Export.LogRowParses | WorkoutTracker/Utilities/ExportManager.swift:25-36 | when the date and number texts hold no separator, a log row parses back to its ten fields: date, program, day, exercise, set number, reps, weight, volume, duration and notes |
| Export.RecordRowParses | WorkoutTracker/Utilities/ExportManager.swift:51-57 | under the same condition, a record row parses back to exercise, weight, reps, date and 1RM text |
| FirestoreManagers.Normalize | WorkoutTracker/Services/FirestoreManager.swift:39-45 | a Timestamp under the key becomes the Date it holds; every other entry is untouched |
| FirestoreManagers.NormalizeAsStored | WorkoutTracker/Services/FirestoreManager.swift:39-45 | a Date written by the app and read back as a Timestamp normalizes to the written document |
| FirestoreManagers.Best | WorkoutTracker/Services/FirestoreManager.swift:224-230 | the head of the weight-then-reps descending order: none iff no records, else one of them that no record beats |
| FirestoreManagers.IsNewPRMeaning | WorkoutTracker/Services/FirestoreManager.swift:246-252 | a lift is a new PR against the best record iff it beats every record |
| FirestoreManagers.IsNewPRExamples | WorkoutTracker/Services/FirestoreManager.swift:249-251 | equalling the PR is not a PR; one more rep, or more weight at any reps, is; less weight is not, whatever the reps; with no PR anything is |
| FirestoreManagers.BestAfterNewPR | WorkoutTracker/Services/FirestoreManager.swift:224-230 | after a new PR is added, it is the best record |
| FirestoreManagers.NewRecord | WorkoutTracker/Services/FirestoreManager.swift:255-261 | the new record carries the user, exercise, weight, reps and log id, in pounds, achieved now |
| FirestoreManagers.RecordsFor | WorkoutTracker/Services/FirestoreManager.swift:211-222 | the query yields at most one record per document, all for the user and exercise |
| FirestoreManagers.RecordsForAppend | WorkoutTracker/Services/FirestoreManager.swift:211-222 | storing a record adds it at the end of its own user's and exercise's query |
| FirestoreManagers.RecordsForAppendOther | WorkoutTracker/Services/FirestoreManager.swift:211-222 | storing a record leaves the query of any other user or exercise unchanged |
| FirestoreManagers.FirestoreManager.constructor | WorkoutTracker/Services/FirestoreManager.swift:6-9 | the store starts with no programs, logs or records |
| FirestoreManagers.FirestoreManager.SaveProgram | WorkoutTracker/Services/FirestoreManager.swift:76-85 | the program is written under its id with `updatedAt` set to the save time; the other collections are unchanged |
| FirestoreManagers.FirestoreManager.DeleteProgram | WorkoutTracker/Services/FirestoreManager.swift:88-94 | the program's document is removed and nothing else changes |
| FirestoreManagers.FirestoreManager.FetchProgram | WorkoutTracker/Services/FirestoreManager.swift:57-73 | nil for an unknown id; otherwise the stored document, with stamps normalized, decoded |
| FirestoreManagers.FirestoreManager.SaveWorkoutLog | WorkoutTracker/Services/FirestoreManager.swift:156-162 | the log's document is written under its id and nothing else changes |
| FirestoreManagers.FirestoreManager.DeleteWorkoutLog | WorkoutTracker/Services/FirestoreManager.swift:165-171 | the log's document is removed and nothing else changes |
| FirestoreManagers.FirestoreManager.GetPersonalRecord | WorkoutTracker/Services/FirestoreManager.swift:208-231 | returns the best of the user's records for the exercise |
| FirestoreManagers.FirestoreManager.SavePersonalRecord | WorkoutTracker/Services/FirestoreManager.swift:234-240 | the record's document is added to the records collection and nothing else changes |
| FirestoreManagers.FirestoreManager.CheckAndUpdatePR | WorkoutTracker/Services/FirestoreManager.swift:243-266 | returns whether the lift beats the current best; exactly then the new record is stored, otherwise the store is unchanged |
| FirestoreManagers.NewPRIsFoundAndFinal | WorkoutTracker/Services/FirestoreManager.swift:243-266 | after a new PR is stored it is what `getPersonalRecord` returns, and repeating the same lift is no longer a PR |
| FirestoreManagers.SavedProgramReadsBack | WorkoutTracker/Services/FirestoreManager.swift:57-85 | a saved program reads back as itself with the save time as `updatedAt`, also when the store returns its dates as Timestamps |
| FirestoreManagers.ProgramsFeedFacts | WorkoutTracker/Services/FirestoreManager.swift:37-47 | the programs feed is newest-updated first and holds exactly the decoded documents: the same multiset of values, so a value appears as often as documents decode to it |
| FirestoreManagers.LogsFeedFacts | WorkoutTracker/Services/FirestoreManager.swift:116-126 | the logs feed is newest-started first and holds exactly the decoded documents: the same multiset of values, so a value appears as often as documents decode to it |
| FirestoreManagers.RecordsFeedFacts | WorkoutTracker/Services/FirestoreManager.swift:193-199 | the records feed is newest-achieved first and holds exactly the decoded documents: the same multiset of values, so a value appears as often as documents decode to it |
| FirestoreManagers.StoredLogReadsBack | WorkoutTracker/Services/FirestoreManager.swift:116-126 | a log written by the app and returned with Timestamps decodes back to itself |
| FirestoreManagers.FirstNamed | WorkoutTracker/Services/FirestoreManager.swift:291 | `first(where:)`: none iff no exercise has the name, else the first index holding it |
| FirestoreManagers.LatestHolding | WorkoutTracker/Services/FirestoreManager.swift:284-288 | none iff no log of the user contains the exercise; else such a log that started no earlier than any other |
| FirestoreManagers.SetTextParses | WorkoutTracker/Services/FirestoreManager.swift:297 | a set text splits at "×" into reps and truncated weight, each parsing back |
| FirestoreManagers.SetTextsFacts | WorkoutTracker/Services/FirestoreManager.swift:296-298 | one text per completed set, each the text of one of them |
| FirestoreManagers.SetTextsSnoc | WorkoutTracker/Services/FirestoreManager.swift:296-298 | the texts follow the sets in order: no sets give no texts, and a set added at the end adds its own text at the end exactly when it is completed |
| FirestoreManagers.LastPerformanceNone | WorkoutTracker/Services/FirestoreManager.swift:270-293 | the answer is nil iff no log of the user contains the exercise |
| FirestoreManagers.LastPerformanceReadsLatest | WorkoutTracker/Services/FirestoreManager.swift:270-299 | otherwise it lists the completed sets of the first matching exercise of a latest log containing it |
| FirestoreManagers.UserLogs | WorkoutTracker/Services/FirestoreManager.swift:272-273 | the query yields exactly the user's logs |
| FirestoreManagers.AppendLogPoints | WorkoutTracker/Services/FirestoreManager.swift:341-353 | the inner loop appends exactly one point per matching exercise with a positive best set |
| FirestoreManagers.TakeWindow | WorkoutTracker/Services/FirestoreManager.swift:330-337 | sorting and the `limit * 10` cut give the progress window |
| FirestoreManagers.GetExerciseProgress | WorkoutTracker/Services/FirestoreManager.swift:316-357 | the method returns the progress series |
| FirestoreManagers.ProgressWindowMembers | WorkoutTracker/Services/FirestoreManager.swift:319-337 | the window holds only the user's logs |
| FirestoreManagers.ProgressWindowNewest | WorkoutTracker/Services/FirestoreManager.swift:334-337 | the window has min(count, limit × 10) logs, none older than a log left out |
| FirestoreManagers.ProgressWindowSorted | WorkoutTracker/Services/FirestoreManager.swift:331 | the window is oldest first |
| FirestoreManagers.LogPointsSorted | WorkoutTracker/Services/FirestoreManager.swift:341-353 | points taken from logs in start order are in date order |
| FirestoreManagers.ProgressSeriesFacts | WorkoutTracker/Services/FirestoreManager.swift:339-356 | the series is the last min(count, `limit`) points of the window, in date order, each with a positive weight and from a log in the window |
| FirestoreManagers.PointIsBestSet | WorkoutTracker/Services/FirestoreManager.swift:345-351 | a point is dated at the log's start and has the exercise's volume; its weight and reps are those of a set that no set outweighs |
| FirestoreManagers.LogsInRange | WorkoutTracker/Services/FirestoreManager.swift:135-153 | the range query yields exactly the user's logs started within [from, to] |
| FirestoreManagers.VolumeOfAppend | WorkoutTracker/Services/FirestoreManager.swift:304-307 | total volume over a concatenation of logs is the sum of the parts |
| FirestoreManagers.StatisticsAppend | WorkoutTracker/Services/FirestoreManager.swift:303-313 | adding a log raises the workout count by one and the total volume by its volume exactly when the log is the user's and within the range |

## Left out

- Firestore I/O is not modelled. Async calls, snapshot listeners and Combine publishers are replaced by reads and updates of in-memory collections. The store's failure paths are left out: thrown errors, and listeners that send `[]` on an error.
- The `print` logging is left out, because it does not affect any result.
- Queries filtered by `whereField` are modelled as filters over the stored documents: `RecordsFor`, `UserLogs` and `LogsInRange`. The descending order of the date-range query is left out, because only the sum and the count of its results are used.
  - `LogsInRange` filters on the decoded `startedAt`. A stored log without a `startedAt` decodes with `now` as its start and may then fall in the range. Firestore's range filter (FirestoreManager.swift:138-139) never returns a document that lacks the field.
- `Date()` and `UUID()` are parameters (`now`, `newId`, lists of fresh ids). The date printer `formattedShort`, Swift's `Double` description and the `%.1f` formatter are function parameters of the exporters.
- `exportSummaryToPDF` and `saveToFile` (ExportManager.swift:68-208) are left out. They draw a PDF with UIKit and write files.
- `Program.shareURL` (Program.swift:54-57) is left out, because it only builds a URL from the id.
- `FirebaseService.swift`, `NotificationManager.swift`, the views and the components are not part of this model.
- Firestore's own type bridging is not modelled. For example, an NSNumber stored as an Int also answers `as? Double` in Swift. Here every cast is strict by the stored type.
- Some functions that model source operations have no contract of their own and so no row above. Each one is specified by the lemmas named for it:
  - Exercises.FullName (Exercise.swift:62-67): no lemma; it only maps a unit to its display name.
  - Exercises.EstimatedVolume (Exercise.swift:48-50): `WorkoutLogs.SkeletonEstimatedVolume`.
  - Exercises.FormattedTarget (Exercise.swift:39-45): `Exercises.FormattedTargetShowsWeight`, `Exercises.FormattedTargetParses`.
  - WorkoutDays.TotalSets (WorkoutDay.swift:27-29): `WorkoutDays.SumTargetSetsAppend`, `WorkoutDays.TotalSetsBounds`, `WorkoutLogs.SkeletonTotals`.
  - WorkoutDays.ExerciseCount (WorkoutDay.swift:32-34): its ensures only gives the number of exercises, as the source does.
  - PersonalRecords.Estimated1RM (PersonalRecord.swift:40-45): `PersonalRecords.EpleyExamples`, `PersonalRecords.EpleyBounds`, `PersonalRecords.PointEstimated1RM`.
  - PersonalRecords.FormattedRecord (PersonalRecord.swift:35-37): `PersonalRecords.FormattedRecordParses`.
  - PersonalRecords.LatestWeight and PersonalRecords.ProgressPercentage (PersonalRecord.swift:107-118): `PersonalRecords.ProgressFacts`.
  - WorkoutLogs.SetVolume (WorkoutLog.swift:175-177): `WorkoutLogs.SumVolumesNonNegative`, `Export.LogRowParses`.
  - WorkoutLogs.FormattedSet (WorkoutLog.swift:180-185): `WorkoutLogs.FormattedSetParses`.
  - WorkoutLogs.TotalVolume (WorkoutLog.swift:48-50): `WorkoutLogs.SumExerciseVolumesAppend`, `WorkoutLogs.SkeletonTotals`.
  - WorkoutLogs.TotalSetsCompleted (WorkoutLog.swift:53-55): `WorkoutLogs.TotalSetsCountsEverySet`, `WorkoutLogs.SkeletonTotals`.
  - WorkoutLogs.FormattedDuration (WorkoutLog.swift:58-65): `WorkoutLogs.FormattedDurationMeaning`.
  - FirestoreManagers.ProgramsFeed, FirestoreManagers.LogsFeed and FirestoreManagers.RecordsFeed (FirestoreManager.swift:37-47, 116-126, 193-199): `FirestoreManagers.ProgramsFeedFacts`, `FirestoreManagers.LogsFeedFacts`, `FirestoreManagers.RecordsFeedFacts`.
  - FirestoreManagers.IsNewPR (FirestoreManager.swift:247-252): `FirestoreManagers.IsNewPRMeaning`, `FirestoreManagers.IsNewPRExamples`, `FirestoreManagers.BestAfterNewPR`.
  - FirestoreManagers.LastPerformance (FirestoreManager.swift:270-299): `FirestoreManagers.LastPerformanceNone`, `FirestoreManagers.LastPerformanceReadsLatest`.
  - FirestoreManagers.ProgressSeries (FirestoreManager.swift:339-356): `FirestoreManagers.ProgressSeriesFacts`, `FirestoreManagers.GetExerciseProgress`.
  - FirestoreManagers.GetTotalVolume and FirestoreManagers.GetWorkoutCount (FirestoreManager.swift:304-313): `FirestoreManagers.LogsInRange`, `FirestoreManagers.VolumeOfAppend`, `FirestoreManagers.StatisticsAppend`.
  - Export.LogRow (ExportManager.swift:25-36): `Export.LogRowParses`, `Export.SetRowsCount`.
  - Export.RecordRow (ExportManager.swift:51-57): `Export.RecordRowParses`, `Export.RecordRowsShape`.
  - Csv.NeedsQuoting (ExportManager.swift:213): `Csv.Escape`, `Export.NumberNeedsNoQuoting`, `Export.DurationNeedsNoQuoting`.
  - Csv.Unescape has no source counterpart. It is the reader's inverse of `escapedForCSV`, specified by `Csv.EscapeRoundTrip`.
- The queries of `getLastPerformance` and `getExerciseProgress` take already decoded logs. The step that converts only the `startedAt` Timestamp to a Date before decoding (FirestoreManager.swift:277-282 and 323-328) is not modelled.
- FirestoreManagers.Best: among records of equal weight and reps it returns the first in store order. Swift's `sorted` does not promise stability, so the source may return any of them. The contract states only what every tie-break satisfies: the result is one of the records and none beats it.
- FirestoreManagers.SortedLogs: logs with the same start time keep their store order. Swift's `sort` is not guaranteed stable either.
- FirestoreManagers.GetExerciseProgress requires `limit >= 0`. Swift's `suffix` traps on a negative length.
- FirestoreManagers.GetExerciseProgress has no default for `limit`. The source defaults it to 30 (FirestoreManager.swift:316); callers of the model pass it.
- Floating-point rounding is not modelled: weights, volumes and durations are exact `real`s.
  - Swift sums `Double` volumes with `reduce`, and floating-point addition is not associative. So WorkoutLogs.SumVolumesAppend, WorkoutLogs.SumExerciseVolumesAppend and FirestoreManagers.VolumeOfAppend hold for the exact values, not always for the rounded sums.
  - The exporters print the exact product `weight × reps` of a set with the number printer, where Swift prints the rounded `Double`.
- Swift's fixed-width `Int` is not modelled: integers here are unbounded. Where Swift traps on overflow, the model computes the exact value. Examples are `limit * 10` in `getExerciseProgress` (FirestoreManager.swift:335, FirestoreManagers.TakeWindow) and the `reduce(0) { $0 + $1.targetSets }` of `totalSets` (WorkoutDay.swift:27-29, WorkoutDays.TotalSets).
- PersonalRecords.ProgressDataPoint and PersonalRecords.ExerciseProgress leave out the `id = UUID()` of the Swift structs (PersonalRecord.swift:99, 123). The ids exist only for SwiftUI's `Identifiable` and are never read by the core.
- Text.Trunc is total. Swift's `Int(Double)` traps on NaN, on infinities and on values outside the `Int` range.
- WorkoutLogs.ExerciseLogFrom requires `targetSets >= 0`. Swift's `0..<n` traps for n < 0.
- FirestoreManagers.FirestoreManager.SavePersonalRecord appends the record's document instead of writing it under its id.
  - The source's `setData` on `document(record.id)` would replace a stored record with the same id.
  - The two agree whenever the id is new, as it is for the freshly generated ids `CheckAndUpdatePR` uses.
- Programs.Copy uses a single `now` for both `createdAt` and `updatedAt`. The source calls `Date()` twice, which may give two slightly different instants.
- Csv.NeedsQuoting looks for "\n" as a character. Swift's `contains("\n")` compares grapheme clusters, so a field holding "\r\n" may not count as containing "\n" there.

## Findings

| source | as written | input that shows it | evidently intended | confidence | as-written member | corrected member |
|---|---|---|---|---|---|---|
| WorkoutTracker/Models/LibraryExercise.swift:39-52 | `firestoreData` writes `createdAt` as `Timestamp(date:)`, but `init?(from:)` reads it only `as? Date` and otherwise uses `Date()` | any library exercise: encoding and then decoding replaces its `createdAt` with the decoding time | the decoder accepts the Timestamp it writes, as the other decoders do after the store converts Timestamps | not executed | LibraryExercises.RoundTripLosesCreatedAt | LibraryExercises.RoundTripCorrected |
