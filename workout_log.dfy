/** WorkoutTracker/Models/WorkoutLog.swift: a performed workout, its
    exercises and sets, the totals derived from them, the skeleton built
    from a template day, and the three document codecs. */
module WorkoutLogs {
  import opened Wrappers
  import opened Text
  import opened Document
  import opened Exercises
  import WorkoutDays
  import Programs

  datatype SetLog = SetLog(
    id: string,
    setNumber: int,
    targetReps: int,
    targetWeight: real,
    actualReps: int,
    weight: real,
    weightUnit: WeightUnit,
    isCompleted: bool,
    isPR: bool,
    rpe: Option<int>,
    previousPerformance: Option<string>)

  datatype ExerciseLog = ExerciseLog(
    id: string,
    exerciseId: Option<string>,
    name: string,
    completedSets: seq<SetLog>,
    notes: string,
    order: int)

  datatype WorkoutLog = WorkoutLog(
    id: string,
    userId: string,
    programId: Option<string>,
    programName: string,
    dayId: Option<string>,
    dayName: string,
    exercises: seq<ExerciseLog>,
    startedAt: Date,
    completedAt: Option<Date>,
    duration: real,
    notes: string,
    rating: Option<int>)

  // ---------------------------------------------------------------------
  // SetLog

  /** `SetLog.init`: a weight that is not positive is replaced by the
      target weight. */
  function NewSetLog(id: string, setNumber: int, targetReps: int, targetWeight: real,
                     actualReps: int, weight: real, weightUnit: WeightUnit,
                     isCompleted: bool, isPR: bool, rpe: Option<int>,
                     previousPerformance: Option<string>): (s: SetLog)
    ensures weight > 0.0 ==> s.weight == weight
    ensures weight <= 0.0 ==> s.weight == targetWeight
    ensures s.(weight := weight) ==
      SetLog(id, setNumber, targetReps, targetWeight, actualReps, weight, weightUnit, isCompleted, isPR, rpe, previousPerformance)
  {
    SetLog(id, setNumber, targetReps, targetWeight, actualReps,
           if weight > 0.0 then weight else targetWeight,
           weightUnit, isCompleted, isPR, rpe, previousPerformance)
  }

  /** reps × weight */
  function SetVolume(s: SetLog): real {
    s.actualReps as real * s.weight
  }

  /** `formattedSet`: "R × W unit" with a positive weight, else "R reps". */
  function FormattedSet(s: SetLog): string {
    if s.weight > 0.0 then IntToString(s.actualReps) + " × " + IntToString(Trunc(s.weight)) + " " + Abbreviation(s.weightUnit)
    else IntToString(s.actualReps) + " reps"
  }

  /** Splitting the display string at spaces gives back the reps, then
      either the sign, the truncated weight and the unit, or the word
      "reps". */
  lemma FormattedSetParses(s: SetLog)
    ensures var parts := SplitOn(FormattedSet(s), ' ');
      && ParseInt(parts[0]) == Some(s.actualReps)
      && (s.weight > 0.0 ==>
            |parts| == 4 && parts[1] == "×" && ParseInt(parts[2]) == Some(Trunc(s.weight)) &&
            ParseWeightUnit(parts[3]) == Some(s.weightUnit))
      && (s.weight <= 0.0 ==> parts == [IntToString(s.actualReps), "reps"])
  {
    var n := IntToString(s.actualReps);
    NoSpaceInNumber(s.actualReps);
    IntToStringRoundTrip(s.actualReps);
    if s.weight > 0.0 {
      var w := IntToString(Trunc(s.weight));
      var u := Abbreviation(s.weightUnit);
      NoSpaceInNumber(Trunc(s.weight));
      assert ' ' !in u;
      assert FormattedSet(s) == n + [' '] + ("×" + [' '] + (w + [' '] + u));
      SplitOnConcat(n, ' ', "×" + [' '] + (w + [' '] + u));
      SplitOnConcat("×", ' ', w + [' '] + u);
      SplitOnConcat(w, ' ', u);
      SplitOnNone(u, ' ');
      IntToStringRoundTrip(Trunc(s.weight));
      WeightUnitRawValues(s.weightUnit, s.weightUnit);
    } else {
      assert FormattedSet(s) == n + [' '] + "reps";
      SplitOnConcat(n, ' ', "reps");
      SplitOnNone("reps", ' ');
    }
  }

  // ---------------------------------------------------------------------
  // ExerciseLog

  function SumVolumes(sets: seq<SetLog>): real {
    if sets == [] then 0.0 else SetVolume(sets[0]) + SumVolumes(sets[1..])
  }

  /** `ExerciseLog.totalVolume` */
  function ExerciseVolume(e: ExerciseLog): real {
    SumVolumes(e.completedSets)
  }

  /** `completedSets.max(by: { $0.weight < $1.weight })`: the first set of
      greatest weight. */
  function BestSet(sets: seq<SetLog>): (r: Option<SetLog>)
    ensures r.None? <==> sets == []
    ensures r.Some? ==> r.value in sets
    ensures r.Some? ==> forall i :: 0 <= i < |sets| ==> sets[i].weight <= r.value.weight
  {
    if sets == [] then None
    else match BestSet(sets[1..])
      case None => Some(sets[0])
      case Some(b) =>
        assert forall i :: 1 <= i < |sets| ==> sets[i] == sets[1..][i - 1];
        if sets[0].weight < b.weight then Some(b) else Some(sets[0])
  }

  /** Among sets of equal greatest weight the first one is chosen. */
  lemma {:induction false} BestSetIsFirst(sets: seq<SetLog>)
    requires sets != []
    ensures exists i :: (0 <= i < |sets| && sets[i] == BestSet(sets).value &&
      forall j :: 0 <= j < i ==> sets[j].weight < BestSet(sets).value.weight)
  {
    var b := BestSet(sets).value;
    if sets[0].weight < b.weight {
      var rest := sets[1..];
      assert BestSet(rest) == Some(b);
      BestSetIsFirst(rest);
      var k :| 0 <= k < |rest| && rest[k] == b && forall j :: 0 <= j < k ==> rest[j].weight < b.weight;
      assert sets[k + 1] == b;
      forall j | 0 <= j < k + 1 ensures sets[j].weight < b.weight {
        if j > 0 {
          assert sets[j] == rest[j - 1];
        }
      }
    } else {
      assert sets[0] == b;
    }
  }

  /** The skeleton set number `n` of an exercise: not yet performed. */
  function SkeletonSet(ex: Exercise, id: string, n: int): SetLog {
    NewSetLog(id, n, ex.targetReps, ex.targetWeight, 0, 0.0, ex.weightUnit, false, false, None, None)
  }

  /** `ExerciseLog.from(exercise:)`: one set per target set, numbered from
      1. The set ids the Swift code generates are parameters. */
  function ExerciseLogFrom(ex: Exercise, id: string, setIds: seq<string>): (r: ExerciseLog)
    requires ex.targetSets >= 0 && |setIds| == ex.targetSets
    ensures r.id == id && r.exerciseId == Some(ex.id) && r.name == ex.name && r.notes == "" && r.order == ex.order
    ensures |r.completedSets| == ex.targetSets
    ensures forall k :: 0 <= k < |r.completedSets| ==>
      r.completedSets[k] == SetLog(setIds[k], k + 1, ex.targetReps, ex.targetWeight, 0, ex.targetWeight,
                                   ex.weightUnit, false, false, None, None)
  {
    ExerciseLog(id, Some(ex.id), ex.name,
                seq(ex.targetSets, k requires 0 <= k < ex.targetSets => SkeletonSet(ex, setIds[k], k + 1)),
                "", ex.order)
  }

  // ---------------------------------------------------------------------
  // WorkoutLog

  function SumExerciseVolumes(es: seq<ExerciseLog>): real {
    if es == [] then 0.0 else ExerciseVolume(es[0]) + SumExerciseVolumes(es[1..])
  }

  /** Volume adds up over a split of the sets. */
  lemma {:induction false} SumVolumesAppend(a: seq<SetLog>, b: seq<SetLog>)
    ensures SumVolumes(a + b) == SumVolumes(a) + SumVolumes(b)
  {
    if a == [] {
      assert a + b == b;
    } else {
      assert (a + b)[1..] == a[1..] + b;
      SumVolumesAppend(a[1..], b);
    }
  }

  /** Sets with non-negative reps and weights lift a non-negative volume. */
  lemma {:induction false} SumVolumesNonNegative(sets: seq<SetLog>)
    requires forall k :: 0 <= k < |sets| ==> sets[k].actualReps >= 0 && sets[k].weight >= 0.0
    ensures SumVolumes(sets) >= 0.0
  {
    if sets != [] {
      SumVolumesNonNegative(sets[1..]);
      assert SetVolume(sets[0]) >= 0.0;
    }
  }

  /** `WorkoutLog.totalVolume` */
  function TotalVolume(log: WorkoutLog): real {
    SumExerciseVolumes(log.exercises)
  }

  /** Volume adds up over a split of the exercises. */
  lemma {:induction false} SumExerciseVolumesAppend(a: seq<ExerciseLog>, b: seq<ExerciseLog>)
    ensures SumExerciseVolumes(a + b) == SumExerciseVolumes(a) + SumExerciseVolumes(b)
  {
    if a == [] {
      assert a + b == b;
    } else {
      assert (a + b)[1..] == a[1..] + b;
      SumExerciseVolumesAppend(a[1..], b);
    }
  }

  function SetCount(es: seq<ExerciseLog>): int {
    if es == [] then 0 else |es[0].completedSets| + SetCount(es[1..])
  }

  /** `totalSetsCompleted`: counts every stored set, completed or not. */
  function TotalSetsCompleted(log: WorkoutLog): int {
    SetCount(log.exercises)
  }

  function CountCompleted(sets: seq<SetLog>): nat {
    if sets == [] then 0 else (if sets[0].isCompleted then 1 else 0) + CountCompleted(sets[1..])
  }

  function CompletedInExercises(es: seq<ExerciseLog>): nat {
    if es == [] then 0 else CountCompleted(es[0].completedSets) + CompletedInExercises(es[1..])
  }

  /** The number of sets of the log that are marked completed. */
  function CompletedSetCount(log: WorkoutLog): nat {
    CompletedInExercises(log.exercises)
  }

  lemma {:induction false} CountCompletedBound(sets: seq<SetLog>)
    ensures CountCompleted(sets) <= |sets|
    ensures CountCompleted(sets) == |sets| <==> forall k :: 0 <= k < |sets| ==> sets[k].isCompleted
  {
    if sets != [] {
      CountCompletedBound(sets[1..]);
      assert forall k :: 1 <= k < |sets| ==> sets[k] == sets[1..][k - 1];
    }
  }

  lemma {:induction false} CompletedInExercisesBound(es: seq<ExerciseLog>)
    ensures CompletedInExercises(es) <= SetCount(es)
    ensures CompletedInExercises(es) == SetCount(es) <==>
      forall i, k :: 0 <= i < |es| && 0 <= k < |es[i].completedSets| ==> es[i].completedSets[k].isCompleted
  {
    if es != [] {
      CountCompletedBound(es[0].completedSets);
      CompletedInExercisesBound(es[1..]);
      assert forall i :: 1 <= i < |es| ==> es[i] == es[1..][i - 1];
    }
  }

  lemma {:induction false} CountCompletedSnoc(sets: seq<SetLog>, s: SetLog)
    ensures CountCompleted(sets + [s]) == CountCompleted(sets) + (if s.isCompleted then 1 else 0)
  {
    if sets != [] {
      assert (sets + [s])[1..] == sets[1..] + [s];
      CountCompletedSnoc(sets[1..], s);
    }
  }

  lemma {:induction false} CompletedInExercisesSnoc(es: seq<ExerciseLog>, e: ExerciseLog)
    ensures CompletedInExercises(es + [e]) == CompletedInExercises(es) + CountCompleted(e.completedSets)
  {
    if es != [] {
      assert (es + [e])[1..] == es[1..] + [e];
      CompletedInExercisesSnoc(es[1..], e);
    }
  }

  /** `totalSetsCompleted` counts at least the completed sets, and exactly
      those only when every set is completed. */
  lemma TotalSetsCountsEverySet(log: WorkoutLog)
    ensures CompletedSetCount(log) <= TotalSetsCompleted(log)
    ensures CompletedSetCount(log) == TotalSetsCompleted(log) <==>
      forall i, k :: 0 <= i < |log.exercises| && 0 <= k < |log.exercises[i].completedSets| ==>
        log.exercises[i].completedSets[k].isCompleted
  {
    CompletedInExercisesBound(log.exercises);
  }

  /** `formattedDuration`: whole hours and the remaining whole minutes. */
  function FormattedDuration(duration: real): string {
    var seconds := Trunc(duration);
    var hours := TruncDiv(seconds, 3600);
    var minutes := TruncDiv(TruncRem(seconds, 3600), 60);
    if hours > 0 then IntToString(hours) + "h " + IntToString(minutes) + "m"
    else IntToString(minutes) + "m"
  }

  /** For a non-negative duration the text shows `h` hours and `m` minutes
      with `h*3600 + m*60` the whole seconds rounded down to a minute, and
      leaves the hours out exactly when the duration is under an hour. */
  lemma FormattedDurationMeaning(duration: real)
    requires duration >= 0.0
    ensures var h, m := Trunc(duration) / 3600, Trunc(duration) % 3600 / 60;
      && h >= 0 && 0 <= m < 60
      && h * 3600 + m * 60 <= Trunc(duration) < h * 3600 + m * 60 + 60
      && FormattedDuration(duration) == (if h > 0 then IntToString(h) + "h " + IntToString(m) + "m" else IntToString(m) + "m")
    ensures (Trunc(duration) < 3600) <==> ('h' !in FormattedDuration(duration))
  {
    var seconds := Trunc(duration);
    var h := seconds / 3600;
    var m := (seconds % 3600) / 60;
    assert TruncDiv(seconds, 3600) == h;
    assert TruncRem(seconds, 3600) == seconds % 3600;
    assert TruncDiv(seconds % 3600, 60) == m;
    assert h * 3600 + m * 60 <= seconds < h * 3600 + m * 60 + 60;
    var mText := IntToString(m) + "m";
    assert 'h' !in mText by {
      forall i | 0 <= i < |mText| ensures mText[i] != 'h' {
        if i < |IntToString(m)| { assert mText[i] == IntToString(m)[i]; }
      }
    }
    assert FormattedDuration(duration) == (if h > 0 then IntToString(h) + "h " + IntToString(m) + "m" else mText);
    if h > 0 {
      assert FormattedDuration(duration)[|IntToString(h)|] == 'h';
    }
  }

  /** `WorkoutLog.from(day:program:userId:)`: one exercise log per template
      exercise, in order. The generated ids and the start time are
      parameters. */
  function WorkoutLogFrom(day: WorkoutDays.WorkoutDay, program: Option<Programs.Program>, userId: string,
                          id: string, now: Date, exerciseIds: seq<string>, setIds: seq<seq<string>>): (r: WorkoutLog)
    requires forall i :: 0 <= i < |day.exercises| ==> day.exercises[i].targetSets >= 0
    requires |exerciseIds| == |day.exercises| && |setIds| == |day.exercises|
    requires forall i :: 0 <= i < |day.exercises| ==> |setIds[i]| == day.exercises[i].targetSets
    ensures r.id == id && r.userId == userId
    ensures r.programId == (if program.Some? then Some(program.value.id) else None)
    ensures r.programName == (if program.Some? then program.value.name else "")
    ensures r.dayId == Some(day.id) && r.dayName == day.name
    ensures r.startedAt == now && r.completedAt == None && r.duration == 0.0 && r.notes == "" && r.rating == None
    ensures |r.exercises| == |day.exercises|
    ensures forall i :: 0 <= i < |day.exercises| ==>
      r.exercises[i] == ExerciseLogFrom(day.exercises[i], exerciseIds[i], setIds[i])
  {
    WorkoutLog(
      id, userId,
      if program.Some? then Some(program.value.id) else None,
      if program.Some? then program.value.name else "",
      Some(day.id), day.name,
      seq(|day.exercises|, i requires 0 <= i < |day.exercises| =>
        ExerciseLogFrom(day.exercises[i], exerciseIds[i], setIds[i])),
      now, None, 0.0, "", None)
  }

  lemma {:induction false} SkeletonSetsIdle(sets: seq<SetLog>)
    requires forall k :: 0 <= k < |sets| ==> sets[k].actualReps == 0 && !sets[k].isCompleted
    ensures SumVolumes(sets) == 0.0 && CountCompleted(sets) == 0
  {
    if sets != [] {
      SkeletonSetsIdle(sets[1..]);
    }
  }

  lemma {:induction false} SkeletonExercisesTotals(exs: seq<Exercise>, es: seq<ExerciseLog>,
                                                   exerciseIds: seq<string>, setIds: seq<seq<string>>)
    requires |es| == |exs| && |exerciseIds| == |exs| && |setIds| == |exs|
    requires forall i :: 0 <= i < |exs| ==> exs[i].targetSets >= 0 && |setIds[i]| == exs[i].targetSets
    requires forall i :: 0 <= i < |exs| ==> es[i] == ExerciseLogFrom(exs[i], exerciseIds[i], setIds[i])
    ensures SetCount(es) == WorkoutDays.SumTargetSets(exs)
    ensures SumExerciseVolumes(es) == 0.0 && CompletedInExercises(es) == 0
  {
    if es != [] {
      SkeletonSetsIdle(es[0].completedSets);
      SkeletonExercisesTotals(exs[1..], es[1..], exerciseIds[1..], setIds[1..]);
    }
  }

  /** A log started from a template day has as many sets as the day's
      `totalSets`, none of them completed, and no volume yet. */
  lemma SkeletonTotals(day: WorkoutDays.WorkoutDay, program: Option<Programs.Program>, userId: string,
                       id: string, now: Date, exerciseIds: seq<string>, setIds: seq<seq<string>>)
    requires forall i :: 0 <= i < |day.exercises| ==> day.exercises[i].targetSets >= 0
    requires |exerciseIds| == |day.exercises| && |setIds| == |day.exercises|
    requires forall i :: 0 <= i < |day.exercises| ==> |setIds[i]| == day.exercises[i].targetSets
    ensures var log := WorkoutLogFrom(day, program, userId, id, now, exerciseIds, setIds);
      && TotalSetsCompleted(log) == WorkoutDays.TotalSets(day)
      && CompletedSetCount(log) == 0
      && TotalVolume(log) == 0.0
  {
    var log := WorkoutLogFrom(day, program, userId, id, now, exerciseIds, setIds);
    SkeletonExercisesTotals(day.exercises, log.exercises, exerciseIds, setIds);
  }

  function SumTargetVolumes(sets: seq<SetLog>): real {
    if sets == [] then 0.0 else sets[0].targetReps as real * sets[0].weight + SumTargetVolumes(sets[1..])
  }

  lemma {:induction false} SumTargetVolumesConstant(sets: seq<SetLog>, reps: int, w: real)
    requires forall k :: 0 <= k < |sets| ==> sets[k].targetReps == reps && sets[k].weight == w
    ensures SumTargetVolumes(sets) == (|sets| * reps) as real * w
  {
    if sets != [] {
      SumTargetVolumesConstant(sets[1..], reps, w);
      assert (|sets| * reps) as real * w == reps as real * w + ((|sets| - 1) * reps) as real * w;
    }
  }

  /** The template's `estimatedVolume` is the volume of its skeleton once
      every set is done at its target reps: each skeleton set starts at the
      target weight. */
  lemma SkeletonEstimatedVolume(ex: Exercise, id: string, setIds: seq<string>)
    requires ex.targetSets >= 0 && |setIds| == ex.targetSets
    ensures SumTargetVolumes(ExerciseLogFrom(ex, id, setIds).completedSets) == EstimatedVolume(ex)
  {
    var sets := ExerciseLogFrom(ex, id, setIds).completedSets;
    SumTargetVolumesConstant(sets, ex.targetReps, ex.targetWeight);
  }

  // ---------------------------------------------------------------------
  // Codecs

  function EncodeSet(s: SetLog): (r: Doc)
    ensures "rpe" in r <==> s.rpe.Some?
    ensures "previousPerformance" in r <==> s.previousPerformance.Some?
  {
    var data := map[
      "id" := VString(s.id),
      "setNumber" := VInt(s.setNumber),
      "targetReps" := VInt(s.targetReps),
      "targetWeight" := VDouble(s.targetWeight),
      "actualReps" := VInt(s.actualReps),
      "weight" := VDouble(s.weight),
      "weightUnit" := VString(RawValue(s.weightUnit)),
      "isCompleted" := VBool(s.isCompleted),
      "isPR" := VBool(s.isPR)];
    var data := PutIfPresent(data, "rpe", OptInt(s.rpe));
    PutIfPresent(data, "previousPerformance", OptString(s.previousPerformance))
  }

  /** `SetLog(from:)`: id and setNumber are required. The stored weight is
      taken as it is, without the target-weight fallback of `SetLog.init`. */
  function DecodeSet(d: Doc): (r: Option<SetLog>)
    ensures r.Some? <==> GetString(d, "id").Some? && GetInt(d, "setNumber").Some?
    ensures r.Some? ==> Some(r.value.id) == GetString(d, "id") && Some(r.value.setNumber) == GetInt(d, "setNumber")
  {
    match (GetString(d, "id"), GetInt(d, "setNumber"))
    case (Some(id), Some(setNumber)) =>
      Some(SetLog(
        id, setNumber,
        GetInt(d, "targetReps").GetOr(10),
        GetDouble(d, "targetWeight").GetOr(0.0),
        GetInt(d, "actualReps").GetOr(0),
        GetDouble(d, "weight").GetOr(0.0),
        DecodeWeightUnit(d),
        GetBool(d, "isCompleted").GetOr(false),
        GetBool(d, "isPR").GetOr(false),
        GetInt(d, "rpe"),
        GetString(d, "previousPerformance")))
    case _ => None
  }

  lemma EncodeSetIdentity(s: SetLog)
    ensures GetString(EncodeSet(s), "id") == Some(s.id) && GetInt(EncodeSet(s), "setNumber") == Some(s.setNumber)
  {
  }

  lemma EncodeSetTargets(s: SetLog)
    ensures GetInt(EncodeSet(s), "targetReps") == Some(s.targetReps) && GetDouble(EncodeSet(s), "targetWeight") == Some(s.targetWeight)
  {
  }

  lemma EncodeSetPerformed(s: SetLog)
    ensures GetInt(EncodeSet(s), "actualReps") == Some(s.actualReps) && GetDouble(EncodeSet(s), "weight") == Some(s.weight)
  {
  }

  lemma EncodeSetFlags(s: SetLog)
    ensures GetBool(EncodeSet(s), "isCompleted") == Some(s.isCompleted) && GetBool(EncodeSet(s), "isPR") == Some(s.isPR)
    ensures DecodeWeightUnit(EncodeSet(s)) == s.weightUnit
  {
    WeightUnitRawValues(s.weightUnit, s.weightUnit);
  }

  lemma EncodeSetOptionals(s: SetLog)
    ensures GetInt(EncodeSet(s), "rpe") == s.rpe && GetString(EncodeSet(s), "previousPerformance") == s.previousPerformance
  {
  }

  lemma SetRoundTrip(s: SetLog)
    ensures DecodeSet(EncodeSet(s)) == Some(s)
  {
    EncodeSetIdentity(s);
    EncodeSetTargets(s);
    EncodeSetPerformed(s);
    EncodeSetFlags(s);
    EncodeSetOptionals(s);
  }

  /** A document holding only id and setNumber decodes with the defaults:
      target 10 reps at weight 0, nothing performed, pounds. */
  lemma DecodeSetDefaults(id: string, setNumber: int)
    ensures DecodeSet(map["id" := VString(id), "setNumber" := VInt(setNumber)]) ==
      Some(SetLog(id, setNumber, 10, 0.0, 0, 0.0, Pounds, false, false, None, None))
  {
  }

  function EncodeExercise(e: ExerciseLog): (r: Doc)
    ensures "exerciseId" in r <==> e.exerciseId.Some?
  {
    var data := map[
      "id" := VString(e.id),
      "name" := VString(e.name),
      "completedSets" := VArray(EncodeList(EncodeSet, e.completedSets)),
      "notes" := VString(e.notes),
      "order" := VInt(e.order)];
    PutIfPresent(data, "exerciseId", OptString(e.exerciseId))
  }

  /** `ExerciseLog(from:)`: id and name are required; malformed sets are
      dropped. */
  function DecodeExercise(d: Doc): (r: Option<ExerciseLog>)
    ensures r.Some? <==> GetString(d, "id").Some? && GetString(d, "name").Some?
    ensures r.Some? ==> Some(r.value.id) == GetString(d, "id") && Some(r.value.name) == GetString(d, "name")
    ensures r.Some? ==> r.value.completedSets == Children(d, "completedSets", DecodeSet)
  {
    match (GetString(d, "id"), GetString(d, "name"))
    case (Some(id), Some(name)) =>
      Some(ExerciseLog(
        id,
        GetString(d, "exerciseId"),
        name,
        Children(d, "completedSets", DecodeSet),
        GetString(d, "notes").GetOr(""),
        GetInt(d, "order").GetOr(0)))
    case _ => None
  }

  lemma SetsRoundTrip(e: ExerciseLog)
    ensures Children(EncodeExercise(e), "completedSets", DecodeSet) == e.completedSets
  {
    forall k | 0 <= k < |e.completedSets| ensures DecodeSet(EncodeSet(e.completedSets[k])) == Some(e.completedSets[k]) {
      SetRoundTrip(e.completedSets[k]);
    }
    ChildrenRoundTrip(EncodeExercise(e), "completedSets", DecodeSet, EncodeSet, e.completedSets);
  }

  lemma ExerciseRoundTrip(e: ExerciseLog)
    ensures DecodeExercise(EncodeExercise(e)) == Some(e)
  {
    var d := EncodeExercise(e);
    assert GetString(d, "id") == Some(e.id) && GetString(d, "name") == Some(e.name);
    assert GetString(d, "exerciseId") == e.exerciseId;
    assert GetString(d, "notes") == Some(e.notes) && GetInt(d, "order") == Some(e.order);
    SetsRoundTrip(e);
  }

  /** The fields the log's `firestoreData` always writes. */
  function EncodeRequired(log: WorkoutLog): Doc {
    map[
      "id" := VString(log.id),
      "userId" := VString(log.userId),
      "programName" := VString(log.programName),
      "dayName" := VString(log.dayName),
      "exercises" := VArray(EncodeList(EncodeExercise, log.exercises)),
      "startedAt" := VDate(log.startedAt),
      "duration" := VDouble(log.duration),
      "notes" := VString(log.notes)]
  }

  function Encode(log: WorkoutLog): (r: Doc)
    ensures "programId" in r <==> log.programId.Some?
    ensures "dayId" in r <==> log.dayId.Some?
    ensures "completedAt" in r <==> log.completedAt.Some?
    ensures "rating" in r <==> log.rating.Some?
  {
    var data := EncodeRequired(log);
    var data := PutIfPresent(data, "programId", OptString(log.programId));
    var data := PutIfPresent(data, "dayId", OptString(log.dayId));
    var data := PutIfPresent(data, "completedAt", OptDate(log.completedAt));
    PutIfPresent(data, "rating", OptInt(log.rating))
  }

  /** `WorkoutLog(from:)`: id, userId and dayName are required; a missing
      start time is the decoding time `now`; malformed exercises are
      dropped. */
  function Decode(d: Doc, now: Date): (r: Option<WorkoutLog>)
    ensures r.Some? <==> GetString(d, "id").Some? && GetString(d, "userId").Some? && GetString(d, "dayName").Some?
    ensures r.Some? ==> Some(r.value.id) == GetString(d, "id")
    ensures r.Some? ==> Some(r.value.userId) == GetString(d, "userId") && Some(r.value.dayName) == GetString(d, "dayName")
    ensures r.Some? ==> r.value.exercises == Children(d, "exercises", DecodeExercise)
  {
    match (GetString(d, "id"), GetString(d, "userId"), GetString(d, "dayName"))
    case (Some(id), Some(userId), Some(dayName)) =>
      Some(WorkoutLog(
        id, userId,
        GetString(d, "programId"),
        GetString(d, "programName").GetOr(""),
        GetString(d, "dayId"),
        dayName,
        Children(d, "exercises", DecodeExercise),
        GetDate(d, "startedAt").GetOr(now),
        GetDate(d, "completedAt"),
        GetDouble(d, "duration").GetOr(0.0),
        GetString(d, "notes").GetOr(""),
        GetInt(d, "rating")))
    case _ => None
  }

  /** The optional fields are written over none of the required ones. */
  lemma EncodeKeeps(log: WorkoutLog, k: string)
    requires k in EncodeRequired(log)
    requires k != "programId" && k != "dayId" && k != "completedAt" && k != "rating"
    ensures k in Encode(log) && Encode(log)[k] == EncodeRequired(log)[k]
  {
    var d1 := PutIfPresent(EncodeRequired(log), "programId", OptString(log.programId));
    var d2 := PutIfPresent(d1, "dayId", OptString(log.dayId));
    var d3 := PutIfPresent(d2, "completedAt", OptDate(log.completedAt));
    PutIfPresentKeeps(EncodeRequired(log), "programId", OptString(log.programId), k);
    PutIfPresentKeeps(d1, "dayId", OptString(log.dayId), k);
    PutIfPresentKeeps(d2, "completedAt", OptDate(log.completedAt), k);
    PutIfPresentKeeps(d3, "rating", OptInt(log.rating), k);
  }

  lemma EncodeExercisesField(log: WorkoutLog)
    ensures "exercises" in Encode(log) && Encode(log)["exercises"] == VArray(EncodeList(EncodeExercise, log.exercises))
  {
    EncodeKeeps(log, "exercises");
  }

  lemma ExercisesRoundTrip(log: WorkoutLog)
    ensures Children(Encode(log), "exercises", DecodeExercise) == log.exercises
  {
    EncodeExercisesField(log);
    forall i | 0 <= i < |log.exercises| ensures DecodeExercise(EncodeExercise(log.exercises[i])) == Some(log.exercises[i]) {
      ExerciseRoundTrip(log.exercises[i]);
    }
    ChildrenRoundTrip(Encode(log), "exercises", DecodeExercise, EncodeExercise, log.exercises);
  }

  lemma EncodeIdentity(log: WorkoutLog)
    ensures GetString(Encode(log), "id") == Some(log.id) && GetString(Encode(log), "userId") == Some(log.userId)
  {
    EncodeKeeps(log, "id");
    EncodeKeeps(log, "userId");
  }

  lemma EncodeNames(log: WorkoutLog)
    ensures GetString(Encode(log), "dayName") == Some(log.dayName) && GetString(Encode(log), "programName") == Some(log.programName)
  {
    EncodeKeeps(log, "dayName");
    EncodeKeeps(log, "programName");
  }

  lemma EncodeTiming(log: WorkoutLog)
    ensures GetDate(Encode(log), "startedAt") == Some(log.startedAt) && GetDouble(Encode(log), "duration") == Some(log.duration)
  {
    EncodeKeeps(log, "startedAt");
    EncodeKeeps(log, "duration");
  }

  lemma EncodeNotes(log: WorkoutLog)
    ensures GetString(Encode(log), "notes") == Some(log.notes)
  {
    EncodeKeeps(log, "notes");
  }

  lemma EncodeOptionalFields(log: WorkoutLog)
    ensures var d := Encode(log);
      && GetString(d, "programId") == log.programId && GetString(d, "dayId") == log.dayId
      && GetDate(d, "completedAt") == log.completedAt && GetInt(d, "rating") == log.rating
  {
  }

  /** Every combination of present and absent optional fields survives. */
  lemma RoundTrip(log: WorkoutLog, now: Date)
    ensures Decode(Encode(log), now) == Some(log)
  {
    EncodeIdentity(log);
    EncodeNames(log);
    EncodeTiming(log);
    EncodeNotes(log);
    EncodeOptionalFields(log);
    ExercisesRoundTrip(log);
  }

  /** A document holding only id, userId and dayName decodes to an empty
      log started at `now`, with no program name, duration or notes. */
  lemma DecodeDefaults(id: string, userId: string, dayName: string, now: Date)
    ensures Decode(map["id" := VString(id), "userId" := VString(userId), "dayName" := VString(dayName)], now) ==
      Some(WorkoutLog(id, userId, None, "", None, dayName, [], now, None, 0.0, "", None))
  {
  }
}
