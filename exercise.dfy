/** WorkoutTracker/Models/Exercise.swift: an exercise of a workout-day
    template, the weight unit, and the exercise's document codec. */
module Exercises {
  import opened Wrappers
  import opened Text
  import opened Document

  datatype WeightUnit = Pounds | Kilograms

  /** The enum's raw value, which is also what documents store. */
  function RawValue(u: WeightUnit): string {
    match u
    case Pounds => "lbs"
    case Kilograms => "kg"
  }

  function Abbreviation(u: WeightUnit): (r: string)
    ensures r == RawValue(u)
  {
    RawValue(u)
  }

  function FullName(u: WeightUnit): string {
    match u
    case Pounds => "Pounds"
    case Kilograms => "Kilograms"
  }

  /** `WeightUnit(rawValue:)` */
  function ParseWeightUnit(s: string): (r: Option<WeightUnit>)
    ensures r.Some? ==> RawValue(r.value) == s
  {
    if s == "lbs" then Some(Pounds)
    else if s == "kg" then Some(Kilograms)
    else None
  }

  lemma WeightUnitRawValues(u: WeightUnit, v: WeightUnit)
    ensures RawValue(Pounds) == "lbs" && RawValue(Kilograms) == "kg"
    ensures RawValue(u) == RawValue(v) ==> u == v
    ensures ParseWeightUnit(RawValue(u)) == Some(u)
  {
  }

  /** The unit stored under "weightUnit", or pounds when it is missing, not a
      string, or not a raw value of the enum. */
  function DecodeWeightUnit(d: Doc): (u: WeightUnit)
    ensures (forall v :: GetString(d, "weightUnit") != Some(RawValue(v))) ==> u == Pounds
    ensures GetString(d, "weightUnit").Some? && ParseWeightUnit(GetString(d, "weightUnit").value).Some? ==>
      GetString(d, "weightUnit") == Some(RawValue(u))
  {
    match GetString(d, "weightUnit")
    case Some(raw) => ParseWeightUnit(raw).GetOr(Pounds)
    case None => Pounds
  }

  datatype Exercise = Exercise(
    id: string,
    name: string,
    targetSets: int,
    targetReps: int,
    targetWeight: real,
    weightUnit: WeightUnit,
    notes: string,
    order: int,
    restSeconds: int)

  /** "S × R @ W unit" when there is a target weight, else "S × R". */
  function FormattedTarget(e: Exercise): string {
    var base := IntToString(e.targetSets) + " × " + IntToString(e.targetReps);
    if e.targetWeight > 0.0 then base + " @ " + IntToString(Trunc(e.targetWeight)) + " " + Abbreviation(e.weightUnit)
    else base
  }

  /** The weight part appears exactly when the target weight is positive. */
  lemma FormattedTargetShowsWeight(e: Exercise)
    ensures '@' in FormattedTarget(e) <==> e.targetWeight > 0.0
  {
    var base := IntToString(e.targetSets) + " × " + IntToString(e.targetReps);
    assert '@' !in base by {
      forall i | 0 <= i < |base| ensures base[i] != '@' {
        if i >= |IntToString(e.targetSets)| + 3 {
          assert base[i] == IntToString(e.targetReps)[i - |IntToString(e.targetSets)| - 3];
        }
      }
    }
    if e.targetWeight > 0.0 {
      assert FormattedTarget(e)[|base| + 1] == '@';
    }
  }

  /** The target text with its separating spaces made explicit. */
  lemma TargetText(e: Exercise)
    ensures var sets, reps := IntToString(e.targetSets), IntToString(e.targetReps);
      FormattedTarget(e) ==
        if e.targetWeight > 0.0 then
          sets + [' '] + ("×" + [' '] + (reps + [' '] + ("@" + [' '] + (IntToString(Trunc(e.targetWeight)) + [' '] + RawValue(e.weightUnit)))))
        else sets + [' '] + ("×" + [' '] + reps)
  {
  }

  /** The words of the weight part "@ W unit". */
  lemma WeightWords(w: int, u: WeightUnit)
    ensures SplitOn("@" + [' '] + (IntToString(w) + [' '] + RawValue(u)), ' ') == ["@", IntToString(w), RawValue(u)]
  {
    NoSpaceInNumber(w);
    assert ' ' !in RawValue(u);
    SplitOnNone(RawValue(u), ' ');
    SplitOnConcat(IntToString(w), ' ', RawValue(u));
    SplitOnConcat("@", ' ', IntToString(w) + [' '] + RawValue(u));
  }

  /** The words of the target text. */
  lemma TargetWords(e: Exercise)
    ensures SplitOn(FormattedTarget(e), ' ') ==
      [IntToString(e.targetSets), "×", IntToString(e.targetReps)] +
      (if e.targetWeight > 0.0 then ["@", IntToString(Trunc(e.targetWeight)), RawValue(e.weightUnit)] else [])
  {
    var sets := IntToString(e.targetSets);
    var reps := IntToString(e.targetReps);
    NoSpaceInNumber(e.targetSets);
    NoSpaceInNumber(e.targetReps);
    TargetText(e);
    if e.targetWeight > 0.0 {
      var tail := "@" + [' '] + (IntToString(Trunc(e.targetWeight)) + [' '] + RawValue(e.weightUnit));
      WeightWords(Trunc(e.targetWeight), e.weightUnit);
      SplitOnConcat(reps, ' ', tail);
      SplitOnConcat("×", ' ', reps + [' '] + tail);
      SplitOnConcat(sets, ' ', "×" + [' '] + (reps + [' '] + tail));
    } else {
      SplitOnNone(reps, ' ');
      SplitOnConcat("×", ' ', reps);
      SplitOnConcat(sets, ' ', "×" + [' '] + reps);
    }
  }

  /** Splitting the target text at spaces gives back the sets and the reps,
      then, when there is a target weight, the sign, the truncated weight
      and the unit. */
  lemma FormattedTargetParses(e: Exercise)
    ensures var parts := SplitOn(FormattedTarget(e), ' ');
      && |parts| == (if e.targetWeight > 0.0 then 6 else 3)
      && ParseInt(parts[0]) == Some(e.targetSets) && parts[1] == "×" && ParseInt(parts[2]) == Some(e.targetReps)
      && (e.targetWeight > 0.0 ==>
            parts[3] == "@" && ParseInt(parts[4]) == Some(Trunc(e.targetWeight)) &&
            ParseWeightUnit(parts[5]) == Some(e.weightUnit))
  {
    TargetWords(e);
    IntToStringRoundTrip(e.targetSets);
    IntToStringRoundTrip(e.targetReps);
    if e.targetWeight > 0.0 {
      IntToStringRoundTrip(Trunc(e.targetWeight));
      WeightUnitRawValues(e.weightUnit, e.weightUnit);
    }
  }

  /** sets × reps × weight */
  function EstimatedVolume(e: Exercise): real {
    (e.targetSets * e.targetReps) as real * e.targetWeight
  }

  function Encode(e: Exercise): Doc {
    map[
      "id" := VString(e.id),
      "name" := VString(e.name),
      "targetSets" := VInt(e.targetSets),
      "targetReps" := VInt(e.targetReps),
      "targetWeight" := VDouble(e.targetWeight),
      "weightUnit" := VString(RawValue(e.weightUnit)),
      "notes" := VString(e.notes),
      "order" := VInt(e.order),
      "restSeconds" := VInt(e.restSeconds)]
  }

  /** `Exercise(from:)`: only id and name are required. */
  function Decode(d: Doc): (r: Option<Exercise>)
    ensures r.Some? <==> GetString(d, "id").Some? && GetString(d, "name").Some?
    ensures r.Some? ==> Some(r.value.id) == GetString(d, "id") && Some(r.value.name) == GetString(d, "name")
  {
    match (GetString(d, "id"), GetString(d, "name"))
    case (Some(id), Some(name)) =>
      Some(Exercise(
        id, name,
        GetInt(d, "targetSets").GetOr(3),
        GetInt(d, "targetReps").GetOr(10),
        GetDouble(d, "targetWeight").GetOr(0.0),
        DecodeWeightUnit(d),
        GetString(d, "notes").GetOr(""),
        GetInt(d, "order").GetOr(0),
        GetInt(d, "restSeconds").GetOr(60)))
    case _ => None
  }

  lemma EncodeKeys(e: Exercise)
    ensures Encode(e).Keys == {"id", "name", "targetSets", "targetReps", "targetWeight", "weightUnit", "notes", "order", "restSeconds"}
  {
  }

  lemma RoundTrip(e: Exercise)
    ensures Decode(Encode(e)) == Some(e)
  {
  }

  /** A document holding only id and name decodes with the defaults:
      3 sets of 10 reps at weight 0 in pounds, no notes, order 0, 60 s rest. */
  lemma DecodeDefaults(id: string, name: string)
    ensures Decode(map["id" := VString(id), "name" := VString(name)]) ==
      Some(Exercise(id, name, 3, 10, 0.0, Pounds, "", 0, 60))
  {
  }
}
