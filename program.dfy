/** WorkoutTracker/Models/Program.swift: a program template (ordered
    workout days owned by one user), its deep copy and its document codec. */
module Programs {
  import opened Wrappers
  import opened Document
  import Exercises
  import WorkoutDays

  datatype Program = Program(
    id: string,
    userId: string,
    name: string,
    description: string,
    days: seq<WorkoutDays.WorkoutDay>,
    createdAt: Date,
    updatedAt: Date)

  /** Fresh ids for a copy: one per day, and one per exercise of each day. */
  predicate IdsFit(days: seq<WorkoutDays.WorkoutDay>, dayIds: seq<string>, exerciseIds: seq<seq<string>>) {
    && |dayIds| == |days|
    && |exerciseIds| == |days|
    && forall i :: 0 <= i < |days| ==> |exerciseIds[i]| == |days[i].exercises|
  }

  function CopyDay(day: WorkoutDays.WorkoutDay, newId: string, exerciseIds: seq<string>): (c: WorkoutDays.WorkoutDay)
    requires |exerciseIds| == |day.exercises|
    ensures c.id == newId && c.name == day.name && c.order == day.order && c.notes == day.notes
    ensures |c.exercises| == |day.exercises|
    ensures forall j :: 0 <= j < |day.exercises| ==> c.exercises[j] == day.exercises[j].(id := exerciseIds[j])
  {
    day.(id := newId,
         exercises := seq(|day.exercises|, j requires 0 <= j < |day.exercises| => day.exercises[j].(id := exerciseIds[j])))
  }

  /** `copy(withNewId:forUser:)`. The UUIDs it generates and the time it
      reads are parameters. */
  function Copy(p: Program, newId: string, userId: string, now: Date,
                dayIds: seq<string>, exerciseIds: seq<seq<string>>): (c: Program)
    requires IdsFit(p.days, dayIds, exerciseIds)
    ensures c.id == newId && c.userId == userId
    ensures c.name == p.name && c.description == p.description
    ensures c.createdAt == now && c.updatedAt == now
    ensures |c.days| == |p.days|
    ensures forall i :: 0 <= i < |p.days| ==>
      && c.days[i].id == dayIds[i]
      && c.days[i].name == p.days[i].name
      && c.days[i].order == p.days[i].order
      && c.days[i].notes == p.days[i].notes
      && |c.days[i].exercises| == |p.days[i].exercises|
      && forall j :: 0 <= j < |p.days[i].exercises| ==> c.days[i].exercises[j] == p.days[i].exercises[j].(id := exerciseIds[i][j])
  {
    p.(id := newId, userId := userId, createdAt := now, updatedAt := now,
       days := seq(|p.days|, i requires 0 <= i < |p.days| => CopyDay(p.days[i], dayIds[i], exerciseIds[i])))
  }

  /** Every id used by the days and exercises of a program. */
  function NestedIds(days: seq<WorkoutDays.WorkoutDay>): set<string> {
    (set i | 0 <= i < |days| :: days[i].id) +
    (set i, j | 0 <= i < |days| && 0 <= j < |days[i].exercises| :: days[i].exercises[j].id)
  }

  /** A day with its own and its exercises' ids blanked out. */
  function Shape(day: WorkoutDays.WorkoutDay): WorkoutDays.WorkoutDay {
    day.(id := "", exercises := seq(|day.exercises|, j requires 0 <= j < |day.exercises| => day.exercises[j].(id := "")))
  }

  /** Apart from ids the copy has the original's days, exercises and their
      order; every nested id of the copy is one of the fresh ids, so when
      those are new the copy shares no nested id with the original. */
  lemma CopyKeepsStructure(p: Program, newId: string, userId: string, now: Date,
                           dayIds: seq<string>, exerciseIds: seq<seq<string>>)
    requires IdsFit(p.days, dayIds, exerciseIds)
    ensures var c := Copy(p, newId, userId, now, dayIds, exerciseIds);
      && Seqs.Map(Shape, c.days) == Seqs.Map(Shape, p.days)
      && NestedIds(c.days) <= (set i | 0 <= i < |dayIds| :: dayIds[i]) +
                              (set i, j | 0 <= i < |exerciseIds| && 0 <= j < |exerciseIds[i]| :: exerciseIds[i][j])
  {
    var c := Copy(p, newId, userId, now, dayIds, exerciseIds);
    forall i | 0 <= i < |p.days| ensures Shape(c.days[i]) == Shape(p.days[i]) {
      assert Shape(c.days[i]).exercises == Shape(p.days[i]).exercises;
    }
  }

  /** The copy shares no nested id with the original when the fresh ids are new. */
  lemma CopyHasFreshIds(p: Program, newId: string, userId: string, now: Date,
                        dayIds: seq<string>, exerciseIds: seq<seq<string>>)
    requires IdsFit(p.days, dayIds, exerciseIds)
    requires forall i :: 0 <= i < |dayIds| ==> dayIds[i] !in NestedIds(p.days)
    requires forall i, j :: 0 <= i < |exerciseIds| && 0 <= j < |exerciseIds[i]| ==> exerciseIds[i][j] !in NestedIds(p.days)
    ensures NestedIds(Copy(p, newId, userId, now, dayIds, exerciseIds).days) !! NestedIds(p.days)
  {
    var c := Copy(p, newId, userId, now, dayIds, exerciseIds);
    forall x | x in NestedIds(c.days) ensures x !in NestedIds(p.days) {
      if i :| 0 <= i < |c.days| && c.days[i].id == x {
        assert x == dayIds[i];
      } else {
        var i, j :| 0 <= i < |c.days| && 0 <= j < |c.days[i].exercises| && c.days[i].exercises[j].id == x;
        assert x == exerciseIds[i][j];
      }
    }
  }

  function Encode(p: Program): Doc {
    map[
      "id" := VString(p.id),
      "userId" := VString(p.userId),
      "name" := VString(p.name),
      "description" := VString(p.description),
      "days" := VArray(EncodeList(WorkoutDays.Encode, p.days)),
      "createdAt" := VDate(p.createdAt),
      "updatedAt" := VDate(p.updatedAt)]
  }

  /** `Program(from:)`: id, userId and name are required; a missing date
      is the decoding time `now`. */
  function Decode(d: Doc, now: Date): (r: Option<Program>)
    ensures r.Some? <==> GetString(d, "id").Some? && GetString(d, "userId").Some? && GetString(d, "name").Some?
    ensures r.Some? ==> Some(r.value.id) == GetString(d, "id")
    ensures r.Some? ==> Some(r.value.userId) == GetString(d, "userId") && Some(r.value.name) == GetString(d, "name")
    ensures r.Some? ==> r.value.days == Children(d, "days", WorkoutDays.Decode)
  {
    match (GetString(d, "id"), GetString(d, "userId"), GetString(d, "name"))
    case (Some(id), Some(userId), Some(name)) =>
      Some(Program(
        id, userId, name,
        GetString(d, "description").GetOr(""),
        Children(d, "days", WorkoutDays.Decode),
        GetDate(d, "createdAt").GetOr(now),
        GetDate(d, "updatedAt").GetOr(now)))
    case _ => None
  }

  lemma EncodeKeys(p: Program)
    ensures Encode(p).Keys == {"id", "userId", "name", "description", "days", "createdAt", "updatedAt"}
  {
  }

  lemma DaysRoundTrip(p: Program)
    ensures Children(Encode(p), "days", WorkoutDays.Decode) == p.days
  {
    forall i | 0 <= i < |p.days| ensures WorkoutDays.Decode(WorkoutDays.Encode(p.days[i])) == Some(p.days[i]) {
      WorkoutDays.RoundTrip(p.days[i]);
    }
    ChildrenRoundTrip(Encode(p), "days", WorkoutDays.Decode, WorkoutDays.Encode, p.days);
  }

  lemma RoundTrip(p: Program, now: Date)
    ensures Decode(Encode(p), now) == Some(p)
  {
    var d := Encode(p);
    assert GetString(d, "id") == Some(p.id) && GetString(d, "userId") == Some(p.userId) && GetString(d, "name") == Some(p.name);
    assert GetString(d, "description") == Some(p.description);
    assert GetDate(d, "createdAt") == Some(p.createdAt) && GetDate(d, "updatedAt") == Some(p.updatedAt);
    DaysRoundTrip(p);
  }

  /** A document holding only id, userId and name decodes to an empty
      program with no description, both dates being the decoding time. */
  lemma DecodeDefaults(id: string, userId: string, name: string, now: Date)
    ensures Decode(map["id" := VString(id), "userId" := VString(userId), "name" := VString(name)], now)
      == Some(Program(id, userId, name, "", [], now, now))
  {
  }
}
