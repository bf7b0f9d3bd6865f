/** WorkoutTracker/Utilities/ExportManager.swift: the text of the two CSV
    exports. The date printing (`formattedShort`), the printing of a Double
    and `String(format: "%.1f")` are passed in as functions. */
module Export {
  import opened Wrappers
  import opened Seqs
  import opened Text
  import opened Csv
  import opened Document
  import opened WorkoutLogs
  import opened PersonalRecords

  /** One line per row: the fields joined with commas, then a newline. */
  function Lines(rows: seq<seq<string>>): string {
    if rows == [] then "" else Lines(rows[..|rows| - 1]) + (Join(rows[|rows| - 1]) + "\n")
  }

  lemma LinesSnoc(rows: seq<seq<string>>, row: seq<string>)
    ensures Lines(rows + [row]) == Lines(rows) + (Join(row) + "\n")
  {
    assert (rows + [row])[..|rows|] == rows;
  }

  // ---------------------------------------------------------------------
  // Workout logs

  const LogsHeader := "Date,Program,Day,Exercise,Sets,Reps,Weight,Volume,Duration,Notes\n"

  /** The ten fields of the row of one completed set. */
  function LogRow(log: WorkoutLog, e: ExerciseLog, s: SetLog, dateText: Date -> string, realText: real -> string): seq<string> {
    [dateText(log.startedAt), Escape(log.programName), Escape(log.dayName), Escape(e.name),
     IntToString(s.setNumber), IntToString(s.actualReps), realText(s.weight), realText(SetVolume(s)),
     FormattedDuration(log.duration), Escape(e.notes)]
  }

  function SetRows(log: WorkoutLog, e: ExerciseLog, sets: seq<SetLog>, dateText: Date -> string, realText: real -> string): seq<seq<string>> {
    if sets == [] then []
    else
      var s := sets[|sets| - 1];
      SetRows(log, e, sets[..|sets| - 1], dateText, realText) + (if s.isCompleted then [LogRow(log, e, s, dateText, realText)] else [])
  }

  function ExerciseRows(log: WorkoutLog, es: seq<ExerciseLog>, dateText: Date -> string, realText: real -> string): seq<seq<string>> {
    if es == [] then []
    else
      var e := es[|es| - 1];
      ExerciseRows(log, es[..|es| - 1], dateText, realText) + SetRows(log, e, e.completedSets, dateText, realText)
  }

  /** The rows of the logs CSV: log by log, exercise by exercise, set by
      set, only the completed sets. */
  function LogRows(logs: seq<WorkoutLog>, dateText: Date -> string, realText: real -> string): seq<seq<string>> {
    if logs == [] then []
    else
      var log := logs[|logs| - 1];
      LogRows(logs[..|logs| - 1], dateText, realText) + ExerciseRows(log, log.exercises, dateText, realText)
  }

  /** The completed sets of the logs, log after log. */
  function CompletedRowCount(logs: seq<WorkoutLog>): nat {
    if logs == [] then 0 else CompletedRowCount(logs[..|logs| - 1]) + CompletedSetCount(logs[|logs| - 1])
  }

  /** One row per completed set, and each row is the row of a completed set. */
  lemma {:induction false} SetRowsCount(log: WorkoutLog, e: ExerciseLog, sets: seq<SetLog>, dateText: Date -> string, realText: real -> string)
    ensures |SetRows(log, e, sets, dateText, realText)| == CountCompleted(sets)
    ensures forall row :: row in SetRows(log, e, sets, dateText, realText) ==>
      exists k :: 0 <= k < |sets| && sets[k].isCompleted && row == LogRow(log, e, sets[k], dateText, realText)
  {
    if sets != [] {
      var init := sets[..|sets| - 1];
      assert sets == init + [sets[|sets| - 1]];
      SetRowsCount(log, e, init, dateText, realText);
      CountCompletedSnoc(init, sets[|sets| - 1]);
      forall row | row in SetRows(log, e, sets, dateText, realText)
        ensures exists k :: 0 <= k < |sets| && sets[k].isCompleted && row == LogRow(log, e, sets[k], dateText, realText)
      {
        if row in SetRows(log, e, init, dateText, realText) {
          var k :| 0 <= k < |init| && init[k].isCompleted && row == LogRow(log, e, init[k], dateText, realText);
          assert sets[k] == init[k];
        } else {
          assert sets[|sets| - 1].isCompleted && row == LogRow(log, e, sets[|sets| - 1], dateText, realText);
        }
      }
    }
  }

  lemma {:induction false} ExerciseRowsCount(log: WorkoutLog, es: seq<ExerciseLog>, dateText: Date -> string, realText: real -> string)
    ensures |ExerciseRows(log, es, dateText, realText)| == CompletedInExercises(es)
  {
    if es != [] {
      var init := es[..|es| - 1];
      assert es == init + [es[|es| - 1]];
      ExerciseRowsCount(log, init, dateText, realText);
      SetRowsCount(log, es[|es| - 1], es[|es| - 1].completedSets, dateText, realText);
      CompletedInExercisesSnoc(init, es[|es| - 1]);
    }
  }

  /** The logs CSV has one row per completed set of every log. */
  lemma {:induction false} LogRowsCount(logs: seq<WorkoutLog>, dateText: Date -> string, realText: real -> string)
    ensures |LogRows(logs, dateText, realText)| == CompletedRowCount(logs)
  {
    if logs != [] {
      LogRowsCount(logs[..|logs| - 1], dateText, realText);
      ExerciseRowsCount(logs[|logs| - 1], logs[|logs| - 1].exercises, dateText, realText);
    }
  }

  lemma {:induction false} LinesAppend(a: seq<seq<string>>, b: seq<seq<string>>)
    ensures Lines(a + b) == Lines(a) + Lines(b)
    decreases |b|
  {
    if b == [] {
      assert a + b == a;
    } else {
      var last := b[|b| - 1];
      assert a + b == (a + b[..|b| - 1]) + [last];
      assert b == b[..|b| - 1] + [last];
      LinesSnoc(a + b[..|b| - 1], last);
      LinesSnoc(b[..|b| - 1], last);
      LinesAppend(a, b[..|b| - 1]);
    }
  }

  lemma SetRowsStep(log: WorkoutLog, e: ExerciseLog, k: nat, dateText: Date -> string, realText: real -> string)
    requires k < |e.completedSets|
    ensures var s := e.completedSets[k];
      Lines(SetRows(log, e, e.completedSets[..k + 1], dateText, realText)) ==
      Lines(SetRows(log, e, e.completedSets[..k], dateText, realText)) +
      (if s.isCompleted then Join(LogRow(log, e, s, dateText, realText)) + "\n" else "")
  {
    var sets := e.completedSets;
    assert sets[..k + 1][..k] == sets[..k];
    var before := SetRows(log, e, sets[..k], dateText, realText);
    if sets[k].isCompleted {
      LinesSnoc(before, LogRow(log, e, sets[k], dateText, realText));
    } else {
      assert before + [] == before;
    }
  }

  lemma ExerciseRowsStep(log: WorkoutLog, j: nat, dateText: Date -> string, realText: real -> string)
    requires j < |log.exercises|
    ensures Lines(ExerciseRows(log, log.exercises[..j + 1], dateText, realText)) ==
      Lines(ExerciseRows(log, log.exercises[..j], dateText, realText)) +
      Lines(SetRows(log, log.exercises[j], log.exercises[j].completedSets, dateText, realText))
  {
    assert log.exercises[..j + 1][..j] == log.exercises[..j];
    LinesAppend(ExerciseRows(log, log.exercises[..j], dateText, realText),
                SetRows(log, log.exercises[j], log.exercises[j].completedSets, dateText, realText));
  }

  lemma LogRowsStep(logs: seq<WorkoutLog>, i: nat, dateText: Date -> string, realText: real -> string)
    requires i < |logs|
    ensures Lines(LogRows(logs[..i + 1], dateText, realText)) ==
      Lines(LogRows(logs[..i], dateText, realText)) + Lines(ExerciseRows(logs[i], logs[i].exercises, dateText, realText))
  {
    assert logs[..i + 1][..i] == logs[..i];
    LinesAppend(LogRows(logs[..i], dateText, realText), ExerciseRows(logs[i], logs[i].exercises, dateText, realText));
  }

  /** The inner loop of `exportLogsToCSV`: one row per completed set of
      one exercise. */
  method AppendSetRows(csv0: string, log: WorkoutLog, e: ExerciseLog, date: string, duration: string,
                       ghost dateText: Date -> string, realText: real -> string) returns (csv: string)
    requires date == dateText(log.startedAt) && duration == FormattedDuration(log.duration)
    ensures csv == csv0 + Lines(SetRows(log, e, e.completedSets, dateText, realText))
  {
    csv := csv0;
    for k := 0 to |e.completedSets|
      invariant csv == csv0 + Lines(SetRows(log, e, e.completedSets[..k], dateText, realText))
    {
      var s := e.completedSets[k];
      SetRowsStep(log, e, k, dateText, realText);
      if s.isCompleted {
        var row := [date, Escape(log.programName), Escape(log.dayName), Escape(e.name),
                    IntToString(s.setNumber), IntToString(s.actualReps), realText(s.weight), realText(SetVolume(s)),
                    duration, Escape(e.notes)];
        assert row == LogRow(log, e, s, dateText, realText);
        AppendAssoc(csv0, Lines(SetRows(log, e, e.completedSets[..k], dateText, realText)), Join(row) + "\n");
        csv := csv + (Join(row) + "\n");
      }
    }
    assert e.completedSets[..|e.completedSets|] == e.completedSets;
  }

  /** The middle loop of `exportLogsToCSV`: the exercises of one log. */
  method AppendExerciseRows(csv0: string, log: WorkoutLog, date: string, duration: string,
                            ghost dateText: Date -> string, realText: real -> string) returns (csv: string)
    requires date == dateText(log.startedAt) && duration == FormattedDuration(log.duration)
    ensures csv == csv0 + Lines(ExerciseRows(log, log.exercises, dateText, realText))
  {
    csv := csv0;
    for j := 0 to |log.exercises|
      invariant csv == csv0 + Lines(ExerciseRows(log, log.exercises[..j], dateText, realText))
    {
      csv := AppendSetRows(csv, log, log.exercises[j], date, duration, dateText, realText);
      ExerciseRowsStep(log, j, dateText, realText);
      AppendAssoc(csv0, Lines(ExerciseRows(log, log.exercises[..j], dateText, realText)),
                  Lines(SetRows(log, log.exercises[j], log.exercises[j].completedSets, dateText, realText)));
    }
    assert log.exercises[..|log.exercises|] == log.exercises;
  }

  /** `exportLogsToCSV`, without the file write. */
  method ExportLogsToCsv(logs: seq<WorkoutLog>, dateText: Date -> string, realText: real -> string) returns (csv: string)
    ensures csv == LogsHeader + Lines(LogRows(logs, dateText, realText))
  {
    csv := LogsHeader;
    for i := 0 to |logs|
      invariant csv == LogsHeader + Lines(LogRows(logs[..i], dateText, realText))
    {
      var log := logs[i];
      var date := dateText(log.startedAt);
      var duration := FormattedDuration(log.duration);
      csv := AppendExerciseRows(csv, log, date, duration, dateText, realText);
      LogRowsStep(logs, i, dateText, realText);
      AppendAssoc(LogsHeader, Lines(LogRows(logs[..i], dateText, realText)), Lines(ExerciseRows(log, log.exercises, dateText, realText)));
    }
    assert logs[..|logs|] == logs;
  }

  // ---------------------------------------------------------------------
  // Personal records

  const RecordsHeader := "Exercise,Weight,Reps,Date,Estimated 1RM\n"

  /** The five fields of the row of one record. */
  function RecordRow(r: PersonalRecord, dateText: Date -> string, realText: real -> string, oneDecimal: real -> string): seq<string> {
    [Escape(r.exerciseName), realText(r.weight), IntToString(r.reps), dateText(r.achievedAt), oneDecimal(Estimated1RM(r))]
  }

  function RecordRows(records: seq<PersonalRecord>, dateText: Date -> string, realText: real -> string,
                      oneDecimal: real -> string): seq<seq<string>> {
    if records == [] then []
    else RecordRows(records[..|records| - 1], dateText, realText, oneDecimal) +
         [RecordRow(records[|records| - 1], dateText, realText, oneDecimal)]
  }

  /** `exportPRsToCSV`, without the file write. */
  method ExportRecordsToCsv(records: seq<PersonalRecord>, dateText: Date -> string, realText: real -> string,
                            oneDecimal: real -> string) returns (csv: string)
    ensures csv == RecordsHeader + Lines(RecordRows(records, dateText, realText, oneDecimal))
  {
    csv := RecordsHeader;
    for i := 0 to |records|
      invariant csv == RecordsHeader + Lines(RecordRows(records[..i], dateText, realText, oneDecimal))
    {
      var r := records[i];
      var row := [Escape(r.exerciseName), realText(r.weight), IntToString(r.reps), dateText(r.achievedAt),
                  oneDecimal(Estimated1RM(r))];
      assert records[..i + 1][..i] == records[..i];
      LinesSnoc(RecordRows(records[..i], dateText, realText, oneDecimal), row);
      AppendAssoc(RecordsHeader, Lines(RecordRows(records[..i], dateText, realText, oneDecimal)), Join(row) + "\n");
      csv := csv + (Join(row) + "\n");
    }
    assert records[..|records|] == records;
  }

  /** One row per record, in input order. */
  lemma {:induction false} RecordRowsShape(records: seq<PersonalRecord>, dateText: Date -> string, realText: real -> string,
                                           oneDecimal: real -> string)
    ensures |RecordRows(records, dateText, realText, oneDecimal)| == |records|
    ensures forall i :: 0 <= i < |records| ==>
      RecordRows(records, dateText, realText, oneDecimal)[i] == RecordRow(records[i], dateText, realText, oneDecimal)
  {
    if records != [] {
      RecordRowsShape(records[..|records| - 1], dateText, realText, oneDecimal);
    }
  }

  // ---------------------------------------------------------------------
  // Reading rows back

  lemma NumberNeedsNoQuoting(n: int)
    ensures !NeedsQuoting(IntToString(n))
  {
    var s := IntToString(n);
    forall i | 0 <= i < |s| ensures s[i] != ',' && s[i] != '"' && s[i] != '\n' {
      assert IsDigit(s[i]) || s[i] == '-';
    }
  }

  lemma DurationNeedsNoQuoting(d: real)
    ensures !NeedsQuoting(FormattedDuration(d))
  {
    var seconds := Trunc(d);
    var hours := TruncDiv(seconds, 3600);
    var minutes := TruncDiv(TruncRem(seconds, 3600), 60);
    NumberNeedsNoQuoting(hours);
    NumberNeedsNoQuoting(minutes);
    var h := IntToString(hours);
    var m := IntToString(minutes);
    var t := FormattedDuration(d);
    forall i | 0 <= i < |t| ensures t[i] != ',' && t[i] != '"' && t[i] != '\n' {
      if hours > 0 {
        assert t == h + "h " + m + "m";
        if i < |h| { assert t[i] == h[i] && h[i] in h; }
        else if |h| + 2 <= i < |h| + 2 + |m| { assert t[i] == m[i - |h| - 2] && m[i - |h| - 2] in m; }
      } else {
        assert t == m + "m";
        if i < |m| { assert t[i] == m[i] && m[i] in m; }
      }
    }
  }

  /** Escaping field by field gives the row. */
  lemma EscapeEach(fields: seq<string>, row: seq<string>)
    requires |fields| == |row|
    requires forall i :: 0 <= i < |fields| ==> Escape(fields[i]) == row[i]
    ensures Map(Escape, fields) == row
  {
  }

  /** A row of the logs CSV has ten fields that read back as the date, the
      program, day and exercise names, set number, reps, weight, volume,
      duration and exercise notes, whatever commas, quotes or newlines the
      names and notes hold (the printed date and numbers being free of
      them). */
  lemma LogRowParses(log: WorkoutLog, e: ExerciseLog, s: SetLog, dateText: Date -> string, realText: real -> string)
    requires !NeedsQuoting(dateText(log.startedAt))
    requires !NeedsQuoting(realText(s.weight)) && !NeedsQuoting(realText(SetVolume(s)))
    ensures ParseRecord(Join(LogRow(log, e, s, dateText, realText))) ==
      Some([dateText(log.startedAt), log.programName, log.dayName, e.name,
            IntToString(s.setNumber), IntToString(s.actualReps), realText(s.weight), realText(SetVolume(s)),
            FormattedDuration(log.duration), e.notes])
  {
    var fields := [dateText(log.startedAt), log.programName, log.dayName, e.name,
                   IntToString(s.setNumber), IntToString(s.actualReps), realText(s.weight), realText(SetVolume(s)),
                   FormattedDuration(log.duration), e.notes];
    NumberNeedsNoQuoting(s.setNumber);
    NumberNeedsNoQuoting(s.actualReps);
    DurationNeedsNoQuoting(log.duration);
    EscapeEach(fields, LogRow(log, e, s, dateText, realText));
    ParseJoinEscaped(fields);
  }

  /** A row of the records CSV reads back as the exercise name, weight,
      reps, date and estimate. */
  lemma RecordRowParses(r: PersonalRecord, dateText: Date -> string, realText: real -> string, oneDecimal: real -> string)
    requires !NeedsQuoting(realText(r.weight)) && !NeedsQuoting(dateText(r.achievedAt))
    requires !NeedsQuoting(oneDecimal(Estimated1RM(r)))
    ensures ParseRecord(Join(RecordRow(r, dateText, realText, oneDecimal))) ==
      Some([r.exerciseName, realText(r.weight), IntToString(r.reps), dateText(r.achievedAt), oneDecimal(Estimated1RM(r))])
  {
    var fields := [r.exerciseName, realText(r.weight), IntToString(r.reps), dateText(r.achievedAt), oneDecimal(Estimated1RM(r))];
    NumberNeedsNoQuoting(r.reps);
    EscapeEach(fields, RecordRow(r, dateText, realText, oneDecimal));
    ParseJoinEscaped(fields);
  }
}
