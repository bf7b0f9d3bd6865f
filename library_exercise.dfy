/** WorkoutTracker/Models/LibraryExercise.swift: a global exercise
    definition, its muscle group raw values and its document codec. */
module LibraryExercises {
  import opened Wrappers
  import opened Document

  datatype MuscleGroup = Chest | Back | Legs | Shoulders | Arms | Core | Cardio | Other

  function RawValue(g: MuscleGroup): string {
    match g
    case Chest => "Chest"
    case Back => "Back"
    case Legs => "Legs"
    case Shoulders => "Shoulders"
    case Arms => "Arms"
    case Core => "Core"
    case Cardio => "Cardio"
    case Other => "Other"
  }

  /** `MuscleGroup(rawValue:)` */
  function ParseMuscleGroup(s: string): (g: Option<MuscleGroup>)
    ensures g.Some? ==> RawValue(g.value) == s
  {
    if s == "Chest" then Some(Chest)
    else if s == "Back" then Some(Back)
    else if s == "Legs" then Some(Legs)
    else if s == "Shoulders" then Some(Shoulders)
    else if s == "Arms" then Some(Arms)
    else if s == "Core" then Some(Core)
    else if s == "Cardio" then Some(Cardio)
    else if s == "Other" then Some(Other)
    else None
  }

  /** `MuscleGroup.allCases` */
  const AllMuscleGroups: seq<MuscleGroup> := [Chest, Back, Legs, Shoulders, Arms, Core, Cardio, Other]

  /** The eight cases are all listed, their raw values are distinct, and
      parsing a raw value gives back its case. */
  lemma MuscleGroupRawValues(g: MuscleGroup, h: MuscleGroup)
    ensures g in AllMuscleGroups && |AllMuscleGroups| == 8
    ensures RawValue(g) == RawValue(h) ==> g == h
    ensures ParseMuscleGroup(RawValue(g)) == Some(g)
  {
  }

  datatype LibraryExercise = LibraryExercise(
    id: string,
    name: string,
    muscleGroup: MuscleGroup,
    isCustom: bool,
    createdAt: Date)

  /** The creation time is written as a Firestore Timestamp. */
  function Encode(e: LibraryExercise): (d: Doc)
    ensures "createdAt" in d && d["createdAt"] == VTimestamp(e.createdAt)
  {
    map[
      "id" := VString(e.id),
      "name" := VString(e.name),
      "muscleGroup" := VString(RawValue(e.muscleGroup)),
      "isCustom" := VBool(e.isCustom),
      "createdAt" := VTimestamp(e.createdAt)]
  }

  /** `LibraryExercise(from:)` as written: id, name, a known muscle group
      and a Bool `isCustom` are required; the creation time is read only as
      a Date, and is otherwise the decoding time `now`. */
  function Decode(d: Doc, now: Date): (r: Option<LibraryExercise>)
    ensures r.Some? <==>
      && GetString(d, "id").Some? && GetString(d, "name").Some?
      && GetString(d, "muscleGroup").Some? && ParseMuscleGroup(GetString(d, "muscleGroup").value).Some?
      && GetBool(d, "isCustom").Some?
    ensures r.Some? ==> Some(r.value.id) == GetString(d, "id") && Some(r.value.name) == GetString(d, "name")
    ensures r.Some? ==> Some(RawValue(r.value.muscleGroup)) == GetString(d, "muscleGroup")
    ensures r.Some? ==> Some(r.value.isCustom) == GetBool(d, "isCustom")
    ensures r.Some? ==> r.value.createdAt == GetDate(d, "createdAt").GetOr(now)
  {
    DecodeWith(d, GetDate(d, "createdAt").GetOr(now))
  }

  function DecodeWith(d: Doc, createdAt: Date): Option<LibraryExercise> {
    match (GetString(d, "id"), GetString(d, "name"), GetString(d, "muscleGroup"), GetBool(d, "isCustom"))
    case (Some(id), Some(name), Some(raw), Some(isCustom)) =>
      (match ParseMuscleGroup(raw)
       case Some(g) => Some(LibraryExercise(id, name, g, isCustom, createdAt))
       case None => None)
    case _ => None
  }

  lemma EncodeFields(e: LibraryExercise)
    ensures GetString(Encode(e), "id") == Some(e.id) && GetString(Encode(e), "name") == Some(e.name)
    ensures GetString(Encode(e), "muscleGroup") == Some(RawValue(e.muscleGroup))
    ensures GetBool(Encode(e), "isCustom") == Some(e.isCustom)
  {
  }

  /** As written, decoding the encoding keeps id, name, muscle group and
      `isCustom`, but the Timestamp is not a Date, so the creation time is
      replaced by `now`: the exercise does not round-trip unless it was
      created at the decoding time. */
  lemma RoundTripLosesCreatedAt(e: LibraryExercise, now: Date)
    ensures Decode(Encode(e), now) == Some(e.(createdAt := now))
    ensures Decode(Encode(e), now) == Some(e) <==> e.createdAt == now
  {
    EncodeFields(e);
    MuscleGroupRawValues(e.muscleGroup, e.muscleGroup);
    assert GetDate(Encode(e), "createdAt") == None;
  }

  /** The creation time read as a Date or as a Timestamp. */
  function GetInstant(d: Doc, k: string): (r: Option<Date>)
    ensures GetDate(d, k).Some? ==> r == GetDate(d, k)
    ensures k in d && d[k].VTimestamp? ==> r == Some(d[k].stamp)
  {
    if k in d && d[k].VTimestamp? then Some(d[k].stamp) else GetDate(d, k)
  }

  /** The decoder with the creation time also accepted as a Timestamp. */
  function DecodeCorrected(d: Doc, now: Date): (r: Option<LibraryExercise>)
    ensures r.Some? <==> Decode(d, now).Some?
    ensures r.Some? ==> r.value.createdAt == GetInstant(d, "createdAt").GetOr(now)
    ensures r.Some? ==> r.value.(createdAt := 0) == Decode(d, now).value.(createdAt := 0)
  {
    DecodeWith(d, GetInstant(d, "createdAt").GetOr(now))
  }

  /** With the corrected decoder every library exercise round-trips. */
  lemma RoundTripCorrected(e: LibraryExercise, now: Date)
    ensures DecodeCorrected(Encode(e), now) == Some(e)
  {
    EncodeFields(e);
    MuscleGroupRawValues(e.muscleGroup, e.muscleGroup);
  }

  /** An unknown muscle group, or an `isCustom` that is missing, rejects the
      document. */
  lemma DecodeRejects(id: string, name: string, now: Date)
    ensures Decode(map["id" := VString(id), "name" := VString(name), "muscleGroup" := VString("Neck"),
                       "isCustom" := VBool(false)], now) == None
    ensures Decode(map["id" := VString(id), "name" := VString(name), "muscleGroup" := VString("Chest")], now) == None
  {
    var d := map["id" := VString(id), "name" := VString(name), "muscleGroup" := VString("Neck"), "isCustom" := VBool(false)];
    assert GetString(d, "muscleGroup") == Some("Neck");
  }
}
