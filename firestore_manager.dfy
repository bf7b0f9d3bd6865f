/** WorkoutTracker/Services/FirestoreManager.swift: what the data-access
    service computes once Firestore has answered. The collections are held
    in memory (the program documents by id, the personal-record documents in
    the order they were written); queries become filters over them, the
    listeners' decode-and-sort step becomes functions over document lists,
    and the statistics take the fetched logs as input. */
module FirestoreManagers {
  import opened Wrappers
  import opened Seqs
  import opened Text
  import opened Document
  import opened Exercises
  import Programs
  import opened WorkoutLogs
  import opened PersonalRecords

  // ---------------------------------------------------------------------
  // Timestamps

  /** `if let t = data[k] as? Timestamp { data[k] = t.dateValue() }` */
  function Normalize(d: Doc, k: string): (r: Doc)
    ensures r.Keys == d.Keys
    ensures forall k' :: k' in d && k' != k ==> r[k'] == d[k']
    ensures k in d && d[k].VTimestamp? ==> r[k] == VDate(d[k].stamp)
    ensures k in d && !d[k].VTimestamp? ==> r[k] == d[k]
  {
    if k in d && d[k].VTimestamp? then d[k := VDate(d[k].stamp)] else d
  }

  /** How Firestore hands a stored `Date` back: as a `Timestamp`. */
  function AsStored(d: Doc, k: string): (r: Doc)
    ensures r.Keys == d.Keys
    ensures k in d && d[k].VDate? ==> r[k] == VTimestamp(d[k].date)
  {
    if k in d && d[k].VDate? then d[k := VTimestamp(d[k].date)] else d
  }

  /** Converting a stored Timestamp back gives the document as written. */
  lemma NormalizeAsStored(d: Doc, k: string)
    requires k !in d || !d[k].VTimestamp?
    ensures Normalize(AsStored(d, k), k) == d
  {
  }

  // ---------------------------------------------------------------------
  // Personal records: selection and the new-PR decision

  /** A lift of `weight` for `reps` ranks above the record `r`: more weight,
      or the same weight for more reps. */
  predicate Beats(weight: real, reps: int, r: PersonalRecord) {
    weight > r.weight || (weight == r.weight && reps > r.reps)
  }

  /** `records.sorted { weight descending, then reps descending }.first`:
      a record no other record ranks above (the first such one). */
  function Best(records: seq<PersonalRecord>): (b: Option<PersonalRecord>)
    ensures b.None? <==> records == []
    ensures b.Some? ==> b.value in records
    ensures b.Some? ==> forall i :: 0 <= i < |records| ==> !Beats(records[i].weight, records[i].reps, b.value)
  {
    if records == [] then None
    else
      var last := records[|records| - 1];
      var init := records[..|records| - 1];
      assert forall i :: 0 <= i < |init| ==> records[i] == init[i];
      match Best(init)
      case None => Some(last)
      case Some(b) => if Beats(last.weight, last.reps, b) then Some(last) else Some(b)
  }

  /** The decision of `checkAndUpdatePR`. */
  predicate IsNewPR(existing: Option<PersonalRecord>, weight: real, reps: int) {
    existing.None? || Beats(weight, reps, existing.value)
  }

  /** A lift is a new PR exactly when it ranks above every stored record
      of the exercise. */
  lemma IsNewPRMeaning(records: seq<PersonalRecord>, weight: real, reps: int)
    ensures IsNewPR(Best(records), weight, reps) <==>
      forall i :: 0 <= i < |records| ==> Beats(weight, reps, records[i])
  {
    if records != [] {
      var b := Best(records).value;
      var k :| 0 <= k < |records| && records[k] == b;
      if IsNewPR(Best(records), weight, reps) {
        forall i | 0 <= i < |records| ensures Beats(weight, reps, records[i]) {
          assert !Beats(records[i].weight, records[i].reps, b);
        }
      } else {
        assert !Beats(weight, reps, records[k]);
      }
    }
  }

  /** Matching the record exactly is not a new PR; more reps at the same
      weight, or more weight, is. */
  lemma IsNewPRExamples(r: PersonalRecord)
    ensures !IsNewPR(Some(r), r.weight, r.reps)
    ensures IsNewPR(Some(r), r.weight, r.reps + 1)
    ensures IsNewPR(Some(r), r.weight + 2.5, 1)
    ensures !IsNewPR(Some(r), r.weight - 2.5, r.reps + 10)
    ensures IsNewPR(None, 0.0, 0)
  {
  }

  /** A record stored after a new PR is the best one. */
  lemma BestAfterNewPR(records: seq<PersonalRecord>, r: PersonalRecord)
    requires IsNewPR(Best(records), r.weight, r.reps)
    ensures Best(records + [r]) == Some(r)
  {
    assert (records + [r])[..|records|] == records;
  }

  /** The row `checkAndUpdatePR` saves: pounds, achieved now. */
  function NewRecord(id: string, userId: string, exerciseName: string, weight: real, reps: int,
                     workoutLogId: Option<string>, now: Date): (r: PersonalRecord)
    ensures r.userId == userId && r.exerciseName == exerciseName
    ensures r.weight == weight && r.reps == reps && r.workoutLogId == workoutLogId
    ensures r.weightUnit == Pounds && r.achievedAt == now && r.id == id
  {
    PersonalRecord(id, userId, exerciseName, weight, reps, Pounds, now, workoutLogId)
  }

  /** A personal-record document as the record query decodes it. */
  function RecordOf(d: Doc, now: Date): Option<PersonalRecord> {
    PersonalRecords.Decode(Normalize(d, "achievedAt"), now)
  }

  /** The answer to the query on userId and exerciseName, decoded with
      `compactMap` (documents that fail to decode are dropped). */
  function RecordsFor(docs: seq<Doc>, userId: string, exerciseName: string, now: Date): (rs: seq<PersonalRecord>)
    ensures |rs| <= |docs|
    ensures forall i :: 0 <= i < |rs| ==> rs[i].userId == userId && rs[i].exerciseName == exerciseName
  {
    if docs == [] then []
    else
      RecordsFor(docs[..|docs| - 1], userId, exerciseName, now) +
      (match RecordOf(docs[|docs| - 1], now)
       case Some(r) => if r.userId == userId && r.exerciseName == exerciseName then [r] else []
       case None => [])
  }

  /** A record that was written reads back through the query on its own
      user and exercise, after the rows already there. */
  lemma RecordsForAppend(docs: seq<Doc>, r: PersonalRecord, now: Date)
    ensures RecordsFor(docs + [PersonalRecords.Encode(r)], r.userId, r.exerciseName, now) ==
      RecordsFor(docs, r.userId, r.exerciseName, now) + [r]
  {
    var d := PersonalRecords.Encode(r);
    assert (docs + [d])[..|docs|] == docs;
    assert Normalize(d, "achievedAt") == d;
    PersonalRecords.RoundTrip(r, now);
  }

  /** Rows of other users or other exercises are invisible to the query. */
  lemma RecordsForAppendOther(docs: seq<Doc>, r: PersonalRecord, userId: string, exerciseName: string, now: Date)
    requires r.userId != userId || r.exerciseName != exerciseName
    ensures RecordsFor(docs + [PersonalRecords.Encode(r)], userId, exerciseName, now) ==
      RecordsFor(docs, userId, exerciseName, now)
  {
    var d := PersonalRecords.Encode(r);
    assert (docs + [d])[..|docs|] == docs;
    assert Normalize(d, "achievedAt") == d;
    PersonalRecords.RoundTrip(r, now);
  }

  // ---------------------------------------------------------------------
  // The stored collections

  class FirestoreManager {
    /** The `programs` collection: document id to document. */
    var programs: map<string, Doc>
    /** The `workoutLogs` collection: document id to document. */
    var workoutLogs: map<string, Doc>
    /** The `personalRecords` collection, in the order rows were written. */
    var personalRecords: seq<Doc>

    constructor()
      ensures programs == map[] && workoutLogs == map[] && personalRecords == []
    {
      programs := map[];
      workoutLogs := map[];
      personalRecords := [];
    }

    /** `saveProgram`: the program is written under its id, stamped with
        the time of the save. */
    method SaveProgram(p: Programs.Program, now: Date)
      modifies this
      ensures programs == old(programs)[p.id := Programs.Encode(p.(updatedAt := now))]
      ensures workoutLogs == old(workoutLogs) && personalRecords == old(personalRecords)
    {
      var updated := p.(updatedAt := now);
      programs := programs[p.id := Programs.Encode(updated)];
    }

    /** `deleteProgram(id:)` */
    method DeleteProgram(id: string)
      modifies this
      ensures programs == old(programs) - {id}
      ensures workoutLogs == old(workoutLogs) && personalRecords == old(personalRecords)
    {
      programs := programs - {id};
    }

    /** `saveWorkoutLog`: the log is written under its id as it is. */
    method SaveWorkoutLog(log: WorkoutLog)
      modifies this
      ensures workoutLogs == old(workoutLogs)[log.id := WorkoutLogs.Encode(log)]
      ensures programs == old(programs) && personalRecords == old(personalRecords)
    {
      workoutLogs := workoutLogs[log.id := WorkoutLogs.Encode(log)];
    }

    /** `deleteWorkoutLog(id:)` */
    method DeleteWorkoutLog(id: string)
      modifies this
      ensures workoutLogs == old(workoutLogs) - {id}
      ensures programs == old(programs) && personalRecords == old(personalRecords)
    {
      workoutLogs := workoutLogs - {id};
    }

    /** `fetchProgram(id:)` */
    method FetchProgram(id: string, now: Date) returns (p: Option<Programs.Program>)
      ensures id !in programs ==> p.None?
      ensures id in programs ==> p == ProgramOf(programs[id], now)
    {
      if id in programs {
        p := ProgramOf(programs[id], now);
      } else {
        p := None;
      }
    }

    /** `getPersonalRecord`: the best stored record of the user's exercise. */
    method GetPersonalRecord(userId: string, exerciseName: string, now: Date) returns (pr: Option<PersonalRecord>)
      ensures pr == Best(RecordsFor(personalRecords, userId, exerciseName, now))
    {
      pr := Best(RecordsFor(personalRecords, userId, exerciseName, now));
    }

    /** `savePersonalRecord` */
    method SavePersonalRecord(r: PersonalRecord)
      modifies this
      ensures personalRecords == old(personalRecords) + [PersonalRecords.Encode(r)]
      ensures programs == old(programs) && workoutLogs == old(workoutLogs)
    {
      personalRecords := personalRecords + [PersonalRecords.Encode(r)];
    }

    /** `checkAndUpdatePR`: a row is added exactly when the lift is a new
        PR, and existing rows are left alone. The fresh id and the time are
        parameters. */
    method CheckAndUpdatePR(userId: string, exerciseName: string, weight: real, reps: int,
                            workoutLogId: Option<string>, newId: string, now: Date) returns (isNewPR: bool)
      modifies this
      ensures isNewPR == IsNewPR(Best(RecordsFor(old(personalRecords), userId, exerciseName, now)), weight, reps)
      ensures isNewPR ==> (personalRecords ==
        old(personalRecords) + [PersonalRecords.Encode(NewRecord(newId, userId, exerciseName, weight, reps, workoutLogId, now))])
      ensures !isNewPR ==> personalRecords == old(personalRecords)
      ensures programs == old(programs) && workoutLogs == old(workoutLogs)
    {
      var existing := GetPersonalRecord(userId, exerciseName, now);
      isNewPR := IsNewPR(existing, weight, reps);
      if isNewPR {
        SavePersonalRecord(NewRecord(newId, userId, exerciseName, weight, reps, workoutLogId, now));
      }
    }
  }

  /** After a new PR is saved the query finds it as the best record, and
      repeating the same lift is no longer a PR. */
  lemma NewPRIsFoundAndFinal(docs: seq<Doc>, newId: string, userId: string, exerciseName: string,
                             weight: real, reps: int, workoutLogId: Option<string>, now: Date)
    requires IsNewPR(Best(RecordsFor(docs, userId, exerciseName, now)), weight, reps)
    ensures var docs' := docs + [PersonalRecords.Encode(NewRecord(newId, userId, exerciseName, weight, reps, workoutLogId, now))];
      && Best(RecordsFor(docs', userId, exerciseName, now)) == Some(NewRecord(newId, userId, exerciseName, weight, reps, workoutLogId, now))
      && !IsNewPR(Best(RecordsFor(docs', userId, exerciseName, now)), weight, reps)
  {
    var r := NewRecord(newId, userId, exerciseName, weight, reps, workoutLogId, now);
    RecordsForAppend(docs, r, now);
    BestAfterNewPR(RecordsFor(docs, userId, exerciseName, now), r);
  }

  // ---------------------------------------------------------------------
  // Programs

  /** A program document as `fetchPrograms` and `fetchProgram` decode it. */
  function ProgramOf(d: Doc, now: Date): Option<Programs.Program> {
    Programs.Decode(Normalize(Normalize(d, "createdAt"), "updatedAt"), now)
  }

  /** A saved program reads back with the save time as its `updatedAt`,
      also when Firestore returns its dates as Timestamps. */
  lemma SavedProgramReadsBack(programs: map<string, Doc>, p: Programs.Program, saved: Date, now: Date)
    ensures var stamped := p.(updatedAt := saved);
      var stored := programs[p.id := Programs.Encode(stamped)];
      && p.id in stored
      && ProgramOf(stored[p.id], now) == Some(stamped)
      && ProgramOf(AsStored(AsStored(stored[p.id], "updatedAt"), "createdAt"), now) == Some(stamped)
  {
    var stamped := p.(updatedAt := saved);
    var d := Programs.Encode(stamped);
    assert Normalize(d, "createdAt") == d;
    assert Normalize(d, "updatedAt") == d;
    var s1 := AsStored(d, "updatedAt");
    assert s1["createdAt"] == d["createdAt"];
    NormalizeAsStored(s1, "createdAt");
    NormalizeAsStored(d, "updatedAt");
    Programs.RoundTrip(stamped, now);
  }

  // ---------------------------------------------------------------------
  // The listeners: decode what decodes, newest first

  /** Decoding and sorting keeps exactly the documents that decode, in the
      order of `key`. */
  lemma FeedFacts<T>(dec: Doc -> Option<T>, docs: seq<Doc>, key: T -> int)
    ensures var r := SortBy(CompactMap(dec, docs), key);
      && SortedBy(r, key)
      && |r| == CountSome(dec, docs)
      && multiset(r) == multiset(CompactMap(dec, docs))
      && (forall i :: 0 <= i < |r| ==> exists j :: 0 <= j < |docs| && dec(docs[j]) == Some(r[i]))
      && (forall j :: 0 <= j < |docs| && dec(docs[j]).Some? ==> dec(docs[j]).value in r)
  {
    CompactMapCount(dec, docs);
    FeedDecoded(dec, docs, key);
    FeedKeeps(dec, docs, key);
  }

  lemma FeedDecoded<T>(dec: Doc -> Option<T>, docs: seq<Doc>, key: T -> int)
    ensures var r := SortBy(CompactMap(dec, docs), key);
      forall i :: 0 <= i < |r| ==> exists j :: 0 <= j < |docs| && dec(docs[j]) == Some(r[i])
  {
    var c := CompactMap(dec, docs);
    var r := SortBy(c, key);
    forall i | 0 <= i < |r| ensures exists j :: 0 <= j < |docs| && dec(docs[j]) == Some(r[i]) {
      assert r[i] in multiset(c);
      var m :| 0 <= m < |c| && c[m] == r[i];
    }
  }

  lemma FeedKeeps<T>(dec: Doc -> Option<T>, docs: seq<Doc>, key: T -> int)
    ensures var r := SortBy(CompactMap(dec, docs), key);
      forall j :: 0 <= j < |docs| && dec(docs[j]).Some? ==> dec(docs[j]).value in r
  {
    var c := CompactMap(dec, docs);
    var r := SortBy(c, key);
    CompactMapKeeps(dec, docs);
    forall j | 0 <= j < |docs| && dec(docs[j]).Some? ensures dec(docs[j]).value in r {
      assert dec(docs[j]).value in multiset(r);
    }
  }

  function ProgramDecoder(now: Date): Doc -> Option<Programs.Program> {
    d => ProgramOf(d, now)
  }

  function NewestUpdateFirst(p: Programs.Program): int {
    -p.updatedAt
  }

  /** The `fetchPrograms` listener's list. */
  function ProgramsFeed(docs: seq<Doc>, now: Date): seq<Programs.Program> {
    SortBy(CompactMap(ProgramDecoder(now), docs), NewestUpdateFirst)
  }

  lemma ProgramsFeedFacts(docs: seq<Doc>, now: Date)
    ensures var r := ProgramsFeed(docs, now);
      && (forall i, j :: 0 <= i < j < |r| ==> r[i].updatedAt >= r[j].updatedAt)
      && |r| == CountSome(ProgramDecoder(now), docs)
      && multiset(r) == multiset(CompactMap(ProgramDecoder(now), docs))
      && (forall i :: 0 <= i < |r| ==> exists j :: 0 <= j < |docs| && ProgramOf(docs[j], now) == Some(r[i]))
      && (forall j :: 0 <= j < |docs| && ProgramOf(docs[j], now).Some? ==> ProgramOf(docs[j], now).value in r)
  {
    ProgramsFeedOrder(docs, now);
    ProgramsFeedMembers(docs, now);
  }

  lemma ProgramsFeedOrder(docs: seq<Doc>, now: Date)
    ensures var r := ProgramsFeed(docs, now);
      && (forall i, j :: 0 <= i < j < |r| ==> r[i].updatedAt >= r[j].updatedAt)
      && |r| == CountSome(ProgramDecoder(now), docs)
  {
    FeedFacts(ProgramDecoder(now), docs, NewestUpdateFirst);
    var r := ProgramsFeed(docs, now);
    forall i, j | 0 <= i < j < |r| ensures r[i].updatedAt >= r[j].updatedAt {
      assert NewestUpdateFirst(r[i]) <= NewestUpdateFirst(r[j]);
    }
  }

  lemma ProgramsFeedMembers(docs: seq<Doc>, now: Date)
    ensures var r := ProgramsFeed(docs, now);
      && (forall i :: 0 <= i < |r| ==> exists j :: 0 <= j < |docs| && ProgramOf(docs[j], now) == Some(r[i]))
      && (forall j :: 0 <= j < |docs| && ProgramOf(docs[j], now).Some? ==> ProgramOf(docs[j], now).value in r)
  {
    FeedDecoded(ProgramDecoder(now), docs, NewestUpdateFirst);
    FeedKeeps(ProgramDecoder(now), docs, NewestUpdateFirst);
  }


  /** A workout-log document as the `fetchWorkoutLogs` listener decodes it. */
  function LogOf(d: Doc, now: Date): Option<WorkoutLog> {
    WorkoutLogs.Decode(Normalize(Normalize(d, "startedAt"), "completedAt"), now)
  }

  function LogDecoder(now: Date): Doc -> Option<WorkoutLog> {
    d => LogOf(d, now)
  }

  function NewestStartFirst(l: WorkoutLog): int {
    -l.startedAt
  }

  /** The `fetchWorkoutLogs` listener's list. */
  function LogsFeed(docs: seq<Doc>, now: Date): seq<WorkoutLog> {
    SortBy(CompactMap(LogDecoder(now), docs), NewestStartFirst)
  }

  lemma LogsFeedFacts(docs: seq<Doc>, now: Date)
    ensures var r := LogsFeed(docs, now);
      && (forall i, j :: 0 <= i < j < |r| ==> r[i].startedAt >= r[j].startedAt)
      && |r| == CountSome(LogDecoder(now), docs)
      && multiset(r) == multiset(CompactMap(LogDecoder(now), docs))
      && (forall i :: 0 <= i < |r| ==> exists j :: 0 <= j < |docs| && LogOf(docs[j], now) == Some(r[i]))
      && (forall j :: 0 <= j < |docs| && LogOf(docs[j], now).Some? ==> LogOf(docs[j], now).value in r)
  {
    LogsFeedOrder(docs, now);
    LogsFeedMembers(docs, now);
  }

  lemma LogsFeedOrder(docs: seq<Doc>, now: Date)
    ensures var r := LogsFeed(docs, now);
      && (forall i, j :: 0 <= i < j < |r| ==> r[i].startedAt >= r[j].startedAt)
      && |r| == CountSome(LogDecoder(now), docs)
  {
    FeedFacts(LogDecoder(now), docs, NewestStartFirst);
    var r := LogsFeed(docs, now);
    forall i, j | 0 <= i < j < |r| ensures r[i].startedAt >= r[j].startedAt {
      assert NewestStartFirst(r[i]) <= NewestStartFirst(r[j]);
    }
  }

  lemma LogsFeedMembers(docs: seq<Doc>, now: Date)
    ensures var r := LogsFeed(docs, now);
      && (forall i :: 0 <= i < |r| ==> exists j :: 0 <= j < |docs| && LogOf(docs[j], now) == Some(r[i]))
      && (forall j :: 0 <= j < |docs| && LogOf(docs[j], now).Some? ==> LogOf(docs[j], now).value in r)
  {
    FeedDecoded(LogDecoder(now), docs, NewestStartFirst);
    FeedKeeps(LogDecoder(now), docs, NewestStartFirst);
  }


  function RecordDecoder(now: Date): Doc -> Option<PersonalRecord> {
    d => RecordOf(d, now)
  }

  function NewestAchievedFirst(r: PersonalRecord): int {
    -r.achievedAt
  }

  /** The `fetchPersonalRecords` listener's list. */
  function RecordsFeed(docs: seq<Doc>, now: Date): seq<PersonalRecord> {
    SortBy(CompactMap(RecordDecoder(now), docs), NewestAchievedFirst)
  }

  lemma RecordsFeedFacts(docs: seq<Doc>, now: Date)
    ensures var r := RecordsFeed(docs, now);
      && (forall i, j :: 0 <= i < j < |r| ==> r[i].achievedAt >= r[j].achievedAt)
      && |r| == CountSome(RecordDecoder(now), docs)
      && multiset(r) == multiset(CompactMap(RecordDecoder(now), docs))
      && (forall i :: 0 <= i < |r| ==> exists j :: 0 <= j < |docs| && RecordOf(docs[j], now) == Some(r[i]))
      && (forall j :: 0 <= j < |docs| && RecordOf(docs[j], now).Some? ==> RecordOf(docs[j], now).value in r)
  {
    RecordsFeedOrder(docs, now);
    RecordsFeedMembers(docs, now);
  }

  lemma RecordsFeedOrder(docs: seq<Doc>, now: Date)
    ensures var r := RecordsFeed(docs, now);
      && (forall i, j :: 0 <= i < j < |r| ==> r[i].achievedAt >= r[j].achievedAt)
      && |r| == CountSome(RecordDecoder(now), docs)
  {
    FeedFacts(RecordDecoder(now), docs, NewestAchievedFirst);
    var r := RecordsFeed(docs, now);
    forall i, j | 0 <= i < j < |r| ensures r[i].achievedAt >= r[j].achievedAt {
      assert NewestAchievedFirst(r[i]) <= NewestAchievedFirst(r[j]);
    }
  }

  lemma RecordsFeedMembers(docs: seq<Doc>, now: Date)
    ensures var r := RecordsFeed(docs, now);
      && (forall i :: 0 <= i < |r| ==> exists j :: 0 <= j < |docs| && RecordOf(docs[j], now) == Some(r[i]))
      && (forall j :: 0 <= j < |docs| && RecordOf(docs[j], now).Some? ==> RecordOf(docs[j], now).value in r)
  {
    FeedDecoded(RecordDecoder(now), docs, NewestAchievedFirst);
    FeedKeeps(RecordDecoder(now), docs, NewestAchievedFirst);
  }


  /** A stored log's Timestamps are read back as its dates. */
  lemma StoredLogReadsBack(log: WorkoutLog, now: Date)
    ensures LogOf(AsStored(AsStored(WorkoutLogs.Encode(log), "completedAt"), "startedAt"), now) == Some(log)
  {
    var d := WorkoutLogs.Encode(log);
    var s1 := AsStored(d, "completedAt");
    assert "startedAt" in s1 && s1["startedAt"] == d["startedAt"];
    NormalizeAsStored(s1, "startedAt");
    NormalizeAsStored(d, "completedAt");
    WorkoutLogs.RoundTrip(log, now);
  }

  // ---------------------------------------------------------------------
  // getLastPerformance

  /** `exercises.first(where: { $0.name == name })`, as an index. */
  function FirstNamed(es: seq<ExerciseLog>, name: string): (k: Option<nat>)
    ensures k.None? <==> forall i :: 0 <= i < |es| ==> es[i].name != name
    ensures k.Some? ==> k.value < |es| && es[k.value].name == name
    ensures k.Some? ==> forall i :: 0 <= i < k.value ==> es[i].name != name
  {
    if es == [] then None
    else if es[0].name == name then Some(0)
    else match FirstNamed(es[1..], name)
      case None => None
      case Some(k) => Some(k + 1)
  }

  /** A log of the user holding an exercise of that name. */
  predicate Holds(log: WorkoutLog, userId: string, name: string) {
    log.userId == userId && exists j :: 0 <= j < |log.exercises| && log.exercises[j].name == name
  }

  /** `filter { contains name }.sorted { startedAt descending }.first`:
      the latest such log (the first of equally late ones). */
  function LatestHolding(logs: seq<WorkoutLog>, userId: string, name: string): (r: Option<WorkoutLog>)
    ensures r.None? <==> forall i :: 0 <= i < |logs| ==> !Holds(logs[i], userId, name)
    ensures r.Some? ==> r.value in logs && Holds(r.value, userId, name)
    ensures r.Some? ==> forall i :: 0 <= i < |logs| && Holds(logs[i], userId, name) ==> logs[i].startedAt <= r.value.startedAt
  {
    if logs == [] then None
    else
      var last := logs[|logs| - 1];
      var init := logs[..|logs| - 1];
      assert forall i :: 0 <= i < |init| ==> logs[i] == init[i];
      var best := LatestHolding(init, userId, name);
      if !Holds(last, userId, name) then best
      else if best.None? || last.startedAt > best.value.startedAt then Some(last)
      else best
  }

  predicate IsCompletedSet(s: SetLog) {
    s.isCompleted
  }

  /** `"\(set.actualReps)×\(Int(set.weight))"` */
  function SetText(s: SetLog): string {
    IntToString(s.actualReps) + "×" + IntToString(Trunc(s.weight))
  }

  /** A set's text reads back as its reps and its whole weight. */
  lemma SetTextParses(s: SetLog)
    ensures var parts := SplitOn(SetText(s), '×');
      && |parts| == 2
      && ParseInt(parts[0]) == Some(s.actualReps)
      && ParseInt(parts[1]) == Some(Trunc(s.weight))
  {
    var a := IntToString(s.actualReps);
    var b := IntToString(Trunc(s.weight));
    assert '×' !in a && '×' !in b;
    assert SetText(s) == a + ['×'] + b;
    SplitOnConcat(a, '×', b);
    SplitOnNone(b, '×');
    IntToStringRoundTrip(s.actualReps);
    IntToStringRoundTrip(Trunc(s.weight));
  }

  /** `completedSets.filter { $0.isCompleted }.map { ... }` */
  function SetTexts(sets: seq<SetLog>): seq<string> {
    Map(SetText, Filter(IsCompletedSet, sets))
  }

  lemma {:induction false} CompletedFilterCount(sets: seq<SetLog>)
    ensures |Filter(IsCompletedSet, sets)| == CountCompleted(sets)
  {
    if sets != [] {
      CompletedFilterCount(sets[1..]);
    }
  }

  /** One text per completed set, each naming a completed set's reps and
      whole weight. */
  lemma SetTextsFacts(sets: seq<SetLog>)
    ensures |SetTexts(sets)| == CountCompleted(sets)
    ensures forall i :: 0 <= i < |SetTexts(sets)| ==> exists s :: s in sets && s.isCompleted && SetTexts(sets)[i] == SetText(s)
  {
    CompletedFilterCount(sets);
    var f := Filter(IsCompletedSet, sets);
    forall i | 0 <= i < |SetTexts(sets)|
      ensures exists s :: s in sets && s.isCompleted && SetTexts(sets)[i] == SetText(s)
    {
      assert f[i] in sets && IsCompletedSet(f[i]);
    }
  }

  /** The texts follow the sets in order: a set added at the end adds its
      text at the end exactly when it is completed, and no sets give no
      texts. */
  lemma SetTextsSnoc(sets: seq<SetLog>, s: SetLog)
    ensures SetTexts([]) == []
    ensures SetTexts(sets + [s]) == SetTexts(sets) + (if s.isCompleted then [SetText(s)] else [])
  {
    var kept, tail := Filter(IsCompletedSet, sets), if s.isCompleted then [s] else [];
    FilterSnoc(IsCompletedSet, sets, s);
    assert Filter(IsCompletedSet, sets + [s]) == kept + tail;
    MapConcat(SetText, kept, tail);
    assert Map(SetText, tail) == if s.isCompleted then [SetText(s)] else [];
  }

  /** `getLastPerformance` over the logs in the collection. */
  function LastPerformance(logs: seq<WorkoutLog>, userId: string, name: string): Option<seq<string>> {
    match LatestHolding(logs, userId, name)
    case None => None
    case Some(log) =>
      match FirstNamed(log.exercises, name)
      case None => None
      case Some(k) => Some(SetTexts(log.exercises[k].completedSets))
  }

  /** Nothing is found exactly when no log of the user has an exercise of
      that name. */
  lemma LastPerformanceNone(logs: seq<WorkoutLog>, userId: string, name: string)
    ensures LastPerformance(logs, userId, name).None? <==>
      forall i, j :: 0 <= i < |logs| && logs[i].userId == userId && 0 <= j < |logs[i].exercises| ==>
        logs[i].exercises[j].name != name
  {
  }

  /** Otherwise the texts are those of the first exercise of that name in
      a latest log of the user that has one. */
  lemma LastPerformanceReadsLatest(logs: seq<WorkoutLog>, userId: string, name: string)
    requires LastPerformance(logs, userId, name).Some?
    ensures exists i, k ::
      && 0 <= i < |logs| && 0 <= k < |logs[i].exercises|
      && logs[i].userId == userId
      && logs[i].exercises[k].name == name
      && (forall j :: 0 <= j < k ==> logs[i].exercises[j].name != name)
      && (forall m :: 0 <= m < |logs| && Holds(logs[m], userId, name) ==> logs[m].startedAt <= logs[i].startedAt)
      && LastPerformance(logs, userId, name).value == SetTexts(logs[i].exercises[k].completedSets)
  {
    var log := LatestHolding(logs, userId, name).value;
    var i :| 0 <= i < |logs| && logs[i] == log;
    var k := FirstNamed(log.exercises, name).value;
    assert 0 <= k < |logs[i].exercises|;
  }

  // ---------------------------------------------------------------------
  // getExerciseProgress

  /** The logs of the user, in collection order. */
  function UserLogs(logs: seq<WorkoutLog>, userId: string): (r: seq<WorkoutLog>)
    ensures forall i :: 0 <= i < |r| ==> r[i] in logs && r[i].userId == userId
    ensures forall i :: 0 <= i < |logs| && logs[i].userId == userId ==> logs[i] in r
  {
    if logs == [] then []
    else
      var init := logs[..|logs| - 1];
      var last := logs[|logs| - 1];
      assert forall i :: 0 <= i < |init| ==> logs[i] == init[i];
      UserLogs(init, userId) + (if last.userId == userId then [last] else [])
  }

  function OldestStartFirst(l: WorkoutLog): int {
    l.startedAt
  }

  /** The point one exercise entry contributes: its best set, when that
      has a positive weight. */
  function PointOf(log: WorkoutLog, e: ExerciseLog): Option<ProgressDataPoint> {
    match BestSet(e.completedSets)
    case Some(b) =>
      if b.weight > 0.0 then Some(ProgressDataPoint(log.startedAt, b.weight, b.actualReps, ExerciseVolume(e)))
      else None
    case None => None
  }

  /** The points of the entries named `name`, in order. */
  function ExercisePoints(log: WorkoutLog, es: seq<ExerciseLog>, name: string): seq<ProgressDataPoint> {
    if es == [] then []
    else
      var e := es[|es| - 1];
      ExercisePoints(log, es[..|es| - 1], name) +
      (if e.name == name && PointOf(log, e).Some? then [PointOf(log, e).value] else [])
  }

  function LogPoints(logs: seq<WorkoutLog>, name: string): seq<ProgressDataPoint> {
    if logs == [] then []
    else
      var log := logs[|logs| - 1];
      LogPoints(logs[..|logs| - 1], name) + ExercisePoints(log, log.exercises, name)
  }

  /** `logs.sort { $0.startedAt < $1.startedAt }` on the user's logs. */
  function SortedLogs(logs: seq<WorkoutLog>, userId: string): seq<WorkoutLog> {
    SortBy(UserLogs(logs, userId), OldestStartFirst)
  }

  /** The logs looked at: the user's, oldest first, the newest `limit*10`. */
  function ProgressWindow(logs: seq<WorkoutLog>, userId: string, limit: nat): seq<WorkoutLog> {
    Suffix(SortedLogs(logs, userId), limit * 10)
  }

  /** What `getExerciseProgress` returns. */
  function ProgressSeries(logs: seq<WorkoutLog>, userId: string, name: string, limit: nat): seq<ProgressDataPoint> {
    Suffix(LogPoints(ProgressWindow(logs, userId, limit), name), limit)
  }

  lemma ExercisePointsStep(log: WorkoutLog, es: seq<ExerciseLog>, j: nat, name: string)
    requires j < |es|
    ensures ExercisePoints(log, es[..j + 1], name) == ExercisePoints(log, es[..j], name) +
      (if es[j].name == name && PointOf(log, es[j]).Some? then [PointOf(log, es[j]).value] else [])
  {
    assert es[..j + 1][..j] == es[..j];
  }

  lemma LogPointsStep(logs: seq<WorkoutLog>, i: nat, name: string)
    requires i < |logs|
    ensures LogPoints(logs[..i + 1], name) == LogPoints(logs[..i], name) + ExercisePoints(logs[i], logs[i].exercises, name)
  {
    assert logs[..i + 1][..i] == logs[..i];
  }

  /** The inner loop of `getExerciseProgress`: the points of one log. */
  method AppendLogPoints(points0: seq<ProgressDataPoint>, log: WorkoutLog, name: string)
    returns (points: seq<ProgressDataPoint>)
    ensures points == points0 + ExercisePoints(log, log.exercises, name)
  {
    points := points0;
    for j := 0 to |log.exercises|
      invariant points == points0 + ExercisePoints(log, log.exercises[..j], name)
    {
      var e := log.exercises[j];
      ExercisePointsStep(log, log.exercises, j, name);
      if e.name == name {
        var best := BestSet(e.completedSets);
        if best.Some? && best.value.weight > 0.0 {
          AppendAssoc(points0, ExercisePoints(log, log.exercises[..j], name), [PointOf(log, e).value]);
          points := points + [ProgressDataPoint(log.startedAt, best.value.weight, best.value.actualReps, ExerciseVolume(e))];
        }
      }
    }
    assert log.exercises[..|log.exercises|] == log.exercises;
  }

  /** The first step of `getExerciseProgress`: sort in date order, then
      keep the newest `limit*10` logs when there are more. */
  method TakeWindow(logs: seq<WorkoutLog>, userId: string, limit: nat) returns (sorted: seq<WorkoutLog>)
    ensures sorted == ProgressWindow(logs, userId, limit)
  {
    sorted := SortedLogs(logs, userId);
    if |sorted| > limit * 10 {
      sorted := sorted[|sorted| - limit * 10..];
    }
  }

  /** `getExerciseProgress`: sort the user's logs by date, keep the newest
      `limit*10`, collect a point per matching entry, return the newest
      `limit` points. A negative `limit` traps in Swift. */
  method GetExerciseProgress(logs: seq<WorkoutLog>, userId: string, name: string, limit: int)
    returns (points: seq<ProgressDataPoint>)
    requires limit >= 0
    ensures points == ProgressSeries(logs, userId, name, limit)
  {
    var sorted := TakeWindow(logs, userId, limit);
    var dataPoints: seq<ProgressDataPoint> := [];
    for i := 0 to |sorted|
      invariant dataPoints == LogPoints(sorted[..i], name)
    {
      dataPoints := AppendLogPoints(dataPoints, sorted[i], name);
      LogPointsStep(sorted, i, name);
    }
    assert sorted[..|sorted|] == sorted;
    if |dataPoints| > limit {
      points := dataPoints[|dataPoints| - limit..];
    } else {
      points := dataPoints;
    }
  }

  /** Every point comes from an entry of that name in one of the logs: it
      carries the log's date and the entry's best set, of positive weight. */
  predicate PointFrom(p: ProgressDataPoint, logs: seq<WorkoutLog>, name: string) {
    exists i, j :: 0 <= i < |logs| && 0 <= j < |logs[i].exercises| &&
      logs[i].exercises[j].name == name && PointOf(logs[i], logs[i].exercises[j]) == Some(p)
  }

  lemma {:induction false} ExercisePointsOrigin(log: WorkoutLog, es: seq<ExerciseLog>, name: string)
    ensures forall p :: p in ExercisePoints(log, es, name) ==>
      p.date == log.startedAt && exists j :: 0 <= j < |es| && es[j].name == name && PointOf(log, es[j]) == Some(p)
  {
    if es != [] {
      var init := es[..|es| - 1];
      ExercisePointsOrigin(log, init, name);
      forall p | p in ExercisePoints(log, es, name)
        ensures p.date == log.startedAt && exists j :: 0 <= j < |es| && es[j].name == name && PointOf(log, es[j]) == Some(p)
      {
        if p in ExercisePoints(log, init, name) {
          var j :| 0 <= j < |init| && init[j].name == name && PointOf(log, init[j]) == Some(p);
          assert es[j] == init[j];
        } else {
          assert PointOf(log, es[|es| - 1]) == Some(p);
        }
      }
    }
  }

  lemma {:induction false} LogPointsOrigin(logs: seq<WorkoutLog>, name: string)
    ensures forall p :: p in LogPoints(logs, name) ==> PointFrom(p, logs, name)
  {
    if logs != [] {
      var init := logs[..|logs| - 1];
      var last := logs[|logs| - 1];
      LogPointsOrigin(init, name);
      ExercisePointsOrigin(last, last.exercises, name);
      forall p | p in LogPoints(logs, name) ensures PointFrom(p, logs, name) {
        if p in LogPoints(init, name) {
          var i, j :| 0 <= i < |init| && 0 <= j < |init[i].exercises| &&
            init[i].exercises[j].name == name && PointOf(init[i], init[i].exercises[j]) == Some(p);
          assert logs[i] == init[i];
        } else {
          var j :| 0 <= j < |last.exercises| && last.exercises[j].name == name && PointOf(last, last.exercises[j]) == Some(p);
          assert logs[|logs| - 1] == last;
        }
      }
    }
  }

  predicate DatesOrdered(pts: seq<ProgressDataPoint>) {
    forall a, b :: 0 <= a < b < |pts| ==> pts[a].date <= pts[b].date
  }

  lemma DatesOrderedAppend(head: seq<ProgressDataPoint>, tail: seq<ProgressDataPoint>, t: Date)
    requires DatesOrdered(head)
    requires forall p :: p in head ==> p.date <= t
    requires forall p :: p in tail ==> p.date == t
    ensures DatesOrdered(head + tail)
  {
    var pts := head + tail;
    forall a, b | 0 <= a < b < |pts| ensures pts[a].date <= pts[b].date {
      if b < |head| {
        assert pts[a] == head[a] && pts[b] == head[b];
      } else if a >= |head| {
        assert pts[a] in tail && pts[b] in tail;
      } else {
        assert pts[a] in head && pts[b] in tail;
      }
    }
  }

  /** Every point of a log carries a date of one of the logs. */
  lemma PointsNoLaterThan(logs: seq<WorkoutLog>, name: string, t: Date)
    requires forall i :: 0 <= i < |logs| ==> logs[i].startedAt <= t
    ensures forall p :: p in LogPoints(logs, name) ==> p.date <= t
  {
    LogPointsOrigin(logs, name);
    forall p | p in LogPoints(logs, name) ensures p.date <= t {
      var i, j :| 0 <= i < |logs| && 0 <= j < |logs[i].exercises| &&
        logs[i].exercises[j].name == name && PointOf(logs[i], logs[i].exercises[j]) == Some(p);
    }
  }

  /** Over logs in date order the points are in date order. */
  lemma {:induction false} LogPointsSorted(logs: seq<WorkoutLog>, name: string)
    requires SortedBy(logs, OldestStartFirst)
    ensures DatesOrdered(LogPoints(logs, name))
  {
    if logs != [] {
      var init := logs[..|logs| - 1];
      var last := logs[|logs| - 1];
      assert forall i :: 0 <= i < |init| ==> init[i] == logs[i];
      assert SortedBy(init, OldestStartFirst);
      LogPointsSorted(init, name);
      assert forall i :: 0 <= i < |init| ==> init[i].startedAt <= last.startedAt by {
        forall i | 0 <= i < |init| ensures init[i].startedAt <= last.startedAt {
          assert OldestStartFirst(logs[i]) <= OldestStartFirst(logs[|logs| - 1]);
        }
      }
      PointsNoLaterThan(init, name, last.startedAt);
      ExercisePointsOrigin(last, last.exercises, name);
      DatesOrderedAppend(LogPoints(init, name), ExercisePoints(last, last.exercises, name), last.startedAt);
    }
  }

  /** The window holds only logs of the user. */
  lemma ProgressWindowMembers(logs: seq<WorkoutLog>, userId: string, limit: nat)
    ensures var w := ProgressWindow(logs, userId, limit);
      forall i :: 0 <= i < |w| ==> w[i] in logs && w[i].userId == userId
  {
    var u := UserLogs(logs, userId);
    var sorted := SortedLogs(logs, userId);
    var w := ProgressWindow(logs, userId, limit);
    assert multiset(sorted) == multiset(u);
    forall i | 0 <= i < |w| ensures w[i] in logs && w[i].userId == userId {
      assert w[i] == sorted[|sorted| - |w| + i];
      assert w[i] in multiset(u);
      var k :| 0 <= k < |u| && u[k] == w[i];
    }
  }

  /** The window is the newest `limit*10` of the user's logs: every log it
      leaves out started no later than any log it keeps. */
  lemma ProgressWindowNewest(logs: seq<WorkoutLog>, userId: string, limit: nat)
    ensures var sorted := SortedLogs(logs, userId);
      var w := ProgressWindow(logs, userId, limit);
      && |w| == (if |sorted| < limit * 10 then |sorted| else limit * 10)
      && forall i, j :: 0 <= i < |sorted| - |w| && 0 <= j < |w| ==> sorted[i].startedAt <= w[j].startedAt
  {
    var sorted := SortedLogs(logs, userId);
    var w := ProgressWindow(logs, userId, limit);
    var off := |sorted| - |w|;
    forall i, j | 0 <= i < off && 0 <= j < |w| ensures sorted[i].startedAt <= w[j].startedAt {
      assert w[j] == sorted[off + j];
      assert OldestStartFirst(sorted[i]) <= OldestStartFirst(sorted[off + j]);
    }
  }

  /** The window is in date order, oldest first. */
  lemma ProgressWindowSorted(logs: seq<WorkoutLog>, userId: string, limit: nat)
    ensures var w := ProgressWindow(logs, userId, limit);
      forall i, j :: 0 <= i < j < |w| ==> w[i].startedAt <= w[j].startedAt
  {
    var w := ProgressWindow(logs, userId, limit);
    SuffixSorted(SortedLogs(logs, userId), limit * 10, OldestStartFirst);
    forall i, j | 0 <= i < j < |w| ensures w[i].startedAt <= w[j].startedAt {
      assert OldestStartFirst(w[i]) <= OldestStartFirst(w[j]);
    }
  }

  lemma WindowPointsOrdered(logs: seq<WorkoutLog>, userId: string, name: string, limit: nat)
    ensures DatesOrdered(LogPoints(ProgressWindow(logs, userId, limit), name))
  {
    SuffixSorted(SortedLogs(logs, userId), limit * 10, OldestStartFirst);
    LogPointsSorted(ProgressWindow(logs, userId, limit), name);
  }

  lemma DatesOrderedSuffix(pts: seq<ProgressDataPoint>, n: nat)
    requires DatesOrdered(pts)
    ensures DatesOrdered(Suffix(pts, n))
  {
    var r := Suffix(pts, n);
    var off := |pts| - |r|;
    forall a, b | 0 <= a < b < |r| ensures r[a].date <= r[b].date {
      assert r[a] == pts[off + a] && r[b] == pts[off + b];
    }
  }

  lemma SeriesPointsFrom(logs: seq<WorkoutLog>, userId: string, name: string, limit: nat)
    ensures var r := ProgressSeries(logs, userId, name, limit);
      forall k :: 0 <= k < |r| ==> r[k].weight > 0.0 && PointFrom(r[k], ProgressWindow(logs, userId, limit), name)
  {
    var w := ProgressWindow(logs, userId, limit);
    var pts := LogPoints(w, name);
    var r := ProgressSeries(logs, userId, name, limit);
    LogPointsOrigin(w, name);
    forall k | 0 <= k < |r| ensures r[k].weight > 0.0 && PointFrom(r[k], w, name) {
      assert r[k] == pts[|pts| - |r| + k];
      assert r[k] in pts;
      var i, j :| 0 <= i < |w| && 0 <= j < |w[i].exercises| &&
        w[i].exercises[j].name == name && PointOf(w[i], w[i].exercises[j]) == Some(r[k]);
    }
  }

  /** `getExerciseProgress` returns at most `limit` points, in date order,
      the newest ones of the window; each has a positive weight and is the
      best set of an entry of that name in one of the user's logs, dated
      with that log. */
  lemma ProgressSeriesFacts(logs: seq<WorkoutLog>, userId: string, name: string, limit: nat)
    ensures var r := ProgressSeries(logs, userId, name, limit);
      var pts := LogPoints(ProgressWindow(logs, userId, limit), name);
      && |r| == (if |pts| < limit then |pts| else limit)
      && r == pts[|pts| - |r|..]
      && (|pts| <= limit ==> r == pts)
      && DatesOrdered(r)
      && (forall k :: 0 <= k < |r| ==> r[k].weight > 0.0 && PointFrom(r[k], ProgressWindow(logs, userId, limit), name))
  {
    var pts := LogPoints(ProgressWindow(logs, userId, limit), name);
    var r := ProgressSeries(logs, userId, name, limit);
    assert r == Suffix(pts, limit);
    WindowPointsOrdered(logs, userId, name, limit);
    DatesOrderedSuffix(pts, limit);
    SeriesPointsFrom(logs, userId, name, limit);
  }

  /** The weight of a point is that of the entry's heaviest set. */
  lemma PointIsBestSet(log: WorkoutLog, e: ExerciseLog)
    requires PointOf(log, e).Some?
    ensures var p := PointOf(log, e).value;
      && p.date == log.startedAt && p.weight > 0.0 && p.volume == ExerciseVolume(e)
      && (exists s :: s in e.completedSets && s.weight == p.weight && s.actualReps == p.reps)
      && forall s :: s in e.completedSets ==> s.weight <= p.weight
  {
    var b := BestSet(e.completedSets).value;
    forall s | s in e.completedSets ensures s.weight <= b.weight {
      var i :| 0 <= i < |e.completedSets| && e.completedSets[i] == s;
    }
  }

  // ---------------------------------------------------------------------
  // Statistics

  /** The answer to `fetchWorkoutLogs(userId:from:to:)`: the user's logs
      started within the range. */
  function LogsInRange(logs: seq<WorkoutLog>, userId: string, from: Date, to: Date): (r: seq<WorkoutLog>)
    ensures |r| <= |logs|
    ensures forall i :: 0 <= i < |r| ==> r[i] in logs && r[i].userId == userId && from <= r[i].startedAt <= to
    ensures forall i :: 0 <= i < |logs| && logs[i].userId == userId && from <= logs[i].startedAt <= to ==> logs[i] in r
  {
    if logs == [] then []
    else
      var init := logs[..|logs| - 1];
      var last := logs[|logs| - 1];
      assert forall i :: 0 <= i < |init| ==> logs[i] == init[i];
      LogsInRange(init, userId, from, to) +
      (if last.userId == userId && from <= last.startedAt <= to then [last] else [])
  }

  /** `logs.reduce(0) { $0 + $1.totalVolume }` */
  function VolumeOf(logs: seq<WorkoutLog>): real {
    if logs == [] then 0.0 else VolumeOf(logs[..|logs| - 1]) + TotalVolume(logs[|logs| - 1])
  }

  /** `getTotalVolume` */
  function GetTotalVolume(logs: seq<WorkoutLog>, userId: string, from: Date, to: Date): real {
    VolumeOf(LogsInRange(logs, userId, from, to))
  }

  /** `getWorkoutCount` */
  function GetWorkoutCount(logs: seq<WorkoutLog>, userId: string, from: Date, to: Date): nat {
    |LogsInRange(logs, userId, from, to)|
  }

  /** The volume of a concatenation is the sum of the volumes. */
  lemma {:induction false} VolumeOfAppend(a: seq<WorkoutLog>, b: seq<WorkoutLog>)
    ensures VolumeOf(a + b) == VolumeOf(a) + VolumeOf(b)
  {
    if b != [] {
      assert (a + b)[..|a + b| - 1] == a + b[..|b| - 1];
      assert (a + b)[|a + b| - 1] == b[|b| - 1];
      VolumeOfAppend(a, b[..|b| - 1]);
    } else {
      assert a + b == a;
    }
  }

  /** Logs of other users or outside the range add nothing to either
      statistic; a log inside adds one workout and its volume. */
  lemma StatisticsAppend(logs: seq<WorkoutLog>, log: WorkoutLog, userId: string, from: Date, to: Date)
    ensures var inside := log.userId == userId && from <= log.startedAt <= to;
      && GetWorkoutCount(logs + [log], userId, from, to) == GetWorkoutCount(logs, userId, from, to) + (if inside then 1 else 0)
      && GetTotalVolume(logs + [log], userId, from, to) ==
         GetTotalVolume(logs, userId, from, to) + (if inside then TotalVolume(log) else 0.0)
  {
    assert (logs + [log])[..|logs|] == logs;
    VolumeOfAppend(LogsInRange(logs, userId, from, to), if log.userId == userId && from <= log.startedAt <= to then [log] else []);
    assert VolumeOf([log]) == VolumeOf([]) + TotalVolume(log);
  }
}
