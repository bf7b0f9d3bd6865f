/** WorkoutTracker/Models/WorkoutDay.swift: one day of a program template
    and its document codec. */
module WorkoutDays {
  import opened Wrappers
  import opened Document
  import Exercises

  datatype WorkoutDay = WorkoutDay(
    id: string,
    name: string,
    exercises: seq<Exercises.Exercise>,
    order: int,
    notes: string)

  /** The sum of the exercises' target sets. */
  function SumTargetSets(es: seq<Exercises.Exercise>): int {
    if es == [] then 0 else es[0].targetSets + SumTargetSets(es[1..])
  }

  /** `totalSets`: `exercises.reduce(0) { $0 + $1.targetSets }` */
  function TotalSets(day: WorkoutDay): int {
    SumTargetSets(day.exercises)
  }

  lemma {:induction false} SumTargetSetsAppend(a: seq<Exercises.Exercise>, b: seq<Exercises.Exercise>)
    ensures SumTargetSets(a + b) == SumTargetSets(a) + SumTargetSets(b)
  {
    if a != [] {
      assert (a + b)[1..] == a[1..] + b;
      SumTargetSetsAppend(a[1..], b);
    } else {
      assert a + b == b;
    }
  }

  /** Adding an exercise adds its target sets; a day of exercises with
      non-negative targets has a non-negative total. */
  lemma {:induction false} TotalSetsBounds(day: WorkoutDay)
    ensures (forall i :: 0 <= i < |day.exercises| ==> day.exercises[i].targetSets >= 0) ==> TotalSets(day) >= 0
    ensures (forall i :: 0 <= i < |day.exercises| ==> day.exercises[i].targetSets >= 0) ==>
      (forall i :: 0 <= i < |day.exercises| ==> TotalSets(day) >= day.exercises[i].targetSets)
  {
    SumNonNegative(day.exercises);
  }

  lemma {:induction false} SumNonNegative(es: seq<Exercises.Exercise>)
    ensures (forall i :: 0 <= i < |es| ==> es[i].targetSets >= 0) ==>
      SumTargetSets(es) >= 0 && forall i :: 0 <= i < |es| ==> SumTargetSets(es) >= es[i].targetSets
  {
    if es != [] {
      SumNonNegative(es[1..]);
      if forall i :: 0 <= i < |es| ==> es[i].targetSets >= 0 {
        assert forall i :: 1 <= i < |es| ==> es[1..][i - 1] == es[i];
      }
    }
  }

  /** `exerciseCount` */
  function ExerciseCount(day: WorkoutDay): (n: nat)
    ensures n == |day.exercises|
  {
    |day.exercises|
  }

  function Encode(day: WorkoutDay): Doc {
    map[
      "id" := VString(day.id),
      "name" := VString(day.name),
      "exercises" := VArray(EncodeList(Exercises.Encode, day.exercises)),
      "order" := VInt(day.order),
      "notes" := VString(day.notes)]
  }

  /** `WorkoutDay(from:)`: only id and name are required. */
  function Decode(d: Doc): (r: Option<WorkoutDay>)
    ensures r.Some? <==> GetString(d, "id").Some? && GetString(d, "name").Some?
    ensures r.Some? ==> Some(r.value.id) == GetString(d, "id") && Some(r.value.name) == GetString(d, "name")
    ensures r.Some? ==> r.value.exercises == Children(d, "exercises", Exercises.Decode)
  {
    match (GetString(d, "id"), GetString(d, "name"))
    case (Some(id), Some(name)) =>
      Some(WorkoutDay(
        id, name,
        Children(d, "exercises", Exercises.Decode),
        GetInt(d, "order").GetOr(0),
        GetString(d, "notes").GetOr("")))
    case _ => None
  }

  lemma EncodeKeys(day: WorkoutDay)
    ensures Encode(day).Keys == {"id", "name", "exercises", "order", "notes"}
  {
  }

  lemma ExercisesRoundTrip(day: WorkoutDay)
    ensures Children(Encode(day), "exercises", Exercises.Decode) == day.exercises
  {
    forall i | 0 <= i < |day.exercises|
      ensures Exercises.Decode(Exercises.Encode(day.exercises[i])) == Some(day.exercises[i])
    {
      Exercises.RoundTrip(day.exercises[i]);
    }
    ChildrenRoundTrip(Encode(day), "exercises", Exercises.Decode, Exercises.Encode, day.exercises);
  }

  lemma EncodeIdentity(day: WorkoutDay)
    ensures GetString(Encode(day), "id") == Some(day.id) && GetString(Encode(day), "name") == Some(day.name)
  {
  }

  lemma EncodePlacement(day: WorkoutDay)
    ensures GetInt(Encode(day), "order") == Some(day.order) && GetString(Encode(day), "notes") == Some(day.notes)
  {
  }

  lemma RoundTrip(day: WorkoutDay)
    ensures Decode(Encode(day)) == Some(day)
  {
    ExercisesRoundTrip(day);
    EncodeIdentity(day);
    EncodePlacement(day);
  }

  /** A document holding only id and name decodes to an empty day at
      order 0 with no notes. */
  lemma DecodeDefaults(id: string, name: string)
    ensures Decode(map["id" := VString(id), "name" := VString(name)]) == Some(WorkoutDay(id, name, [], 0, ""))
  {
  }
}
