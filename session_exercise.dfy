/** WorkoutTracker/Models/SessionExercise.swift: a reference from a
    session to a library exercise, with its two optional targets and its
    document codec. */
module SessionExercises {
  import opened Wrappers
  import opened Document

  datatype SessionExercise = SessionExercise(
    id: string,
    libraryExerciseId: string,
    libraryExerciseName: string,
    targetSets: int,
    targetReps: int,
    targetWeight: Option<real>,
    restTime: Option<real>,
    notes: string,
    order: int)

  function Encode(e: SessionExercise): (d: Doc)
    ensures "targetWeight" in d <==> e.targetWeight.Some?
    ensures "restTime" in d <==> e.restTime.Some?
  {
    var data := map[
      "id" := VString(e.id),
      "libraryExerciseId" := VString(e.libraryExerciseId),
      "libraryExerciseName" := VString(e.libraryExerciseName),
      "targetSets" := VInt(e.targetSets),
      "targetReps" := VInt(e.targetReps),
      "notes" := VString(e.notes),
      "order" := VInt(e.order)];
    var data := PutIfPresent(data, "targetWeight", OptDouble(e.targetWeight));
    PutIfPresent(data, "restTime", OptDouble(e.restTime))
  }

  /** `SessionExercise(from:)`: the ids, the cached name and both integer
      targets are required. */
  function Decode(d: Doc): (r: Option<SessionExercise>)
    ensures r.Some? <==>
      && GetString(d, "id").Some? && GetString(d, "libraryExerciseId").Some? && GetString(d, "libraryExerciseName").Some?
      && GetInt(d, "targetSets").Some? && GetInt(d, "targetReps").Some?
    ensures r.Some? ==> Some(r.value.id) == GetString(d, "id") && Some(r.value.libraryExerciseId) == GetString(d, "libraryExerciseId")
    ensures r.Some? ==> Some(r.value.targetSets) == GetInt(d, "targetSets") && Some(r.value.targetReps) == GetInt(d, "targetReps")
    ensures r.Some? ==> r.value.targetWeight == GetDouble(d, "targetWeight") && r.value.restTime == GetDouble(d, "restTime")
  {
    match (GetString(d, "id"), GetString(d, "libraryExerciseId"), GetString(d, "libraryExerciseName"),
           GetInt(d, "targetSets"), GetInt(d, "targetReps"))
    case (Some(id), Some(libraryExerciseId), Some(libraryExerciseName), Some(targetSets), Some(targetReps)) =>
      Some(SessionExercise(
        id, libraryExerciseId, libraryExerciseName, targetSets, targetReps,
        GetDouble(d, "targetWeight"),
        GetDouble(d, "restTime"),
        GetString(d, "notes").GetOr(""),
        GetInt(d, "order").GetOr(0)))
    case _ => None
  }

  lemma EncodeReference(e: SessionExercise)
    ensures GetString(Encode(e), "id") == Some(e.id)
    ensures GetString(Encode(e), "libraryExerciseId") == Some(e.libraryExerciseId)
  {
  }

  lemma EncodeTargets(e: SessionExercise)
    ensures GetString(Encode(e), "libraryExerciseName") == Some(e.libraryExerciseName)
    ensures GetInt(Encode(e), "targetSets") == Some(e.targetSets) && GetInt(Encode(e), "targetReps") == Some(e.targetReps)
  {
  }

  lemma EncodeOptionals(e: SessionExercise)
    ensures GetDouble(Encode(e), "targetWeight") == e.targetWeight && GetDouble(Encode(e), "restTime") == e.restTime
    ensures GetString(Encode(e), "notes") == Some(e.notes) && GetInt(Encode(e), "order") == Some(e.order)
  {
  }

  /** Whichever of the two optional targets are present, decoding the
      encoding gives back the value. */
  lemma RoundTrip(e: SessionExercise)
    ensures Decode(Encode(e)) == Some(e)
  {
    EncodeReference(e);
    EncodeTargets(e);
    EncodeOptionals(e);
  }

  /** Only the required keys: no weight or rest target, no notes, order 0. */
  lemma DecodeDefaults(id: string, libId: string, libName: string, sets: int, reps: int)
    ensures Decode(map["id" := VString(id), "libraryExerciseId" := VString(libId), "libraryExerciseName" := VString(libName),
                       "targetSets" := VInt(sets), "targetReps" := VInt(reps)]) ==
      Some(SessionExercise(id, libId, libName, sets, reps, None, None, "", 0))
  {
  }
}
