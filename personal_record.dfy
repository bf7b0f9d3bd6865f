/** WorkoutTracker/Models/PersonalRecord.swift: a personal record row, its
    one-rep-max estimate, display string and document codec, and the
    progress aggregates over a series of data points. */
module PersonalRecords {
  import opened Wrappers
  import opened Text
  import opened Document
  import opened Exercises

  datatype PersonalRecord = PersonalRecord(
    id: string,
    userId: string,
    exerciseName: string,
    weight: real,
    reps: int,
    weightUnit: WeightUnit,
    achievedAt: Date,
    workoutLogId: Option<string>)

  /** The Epley one-rep-max estimate, with a single rep taken as it is. */
  function Epley(weight: real, reps: int): real {
    if reps == 1 then weight else weight * (1.0 + reps as real / 30.0)
  }

  /** `PersonalRecord.estimated1RM` */
  function Estimated1RM(r: PersonalRecord): real {
    Epley(r.weight, r.reps)
  }

  /** 150 lbs for 10 reps estimates 200; a single rep is its own maximum. */
  lemma EpleyExamples()
    ensures Epley(150.0, 10) == 200.0
    ensures Epley(135.0, 1) == 135.0
    ensures Epley(100.0, 0) == 100.0
  {
  }

  /** For a non-negative weight the estimate never falls below the weight,
      equals it exactly for zero or one rep (when the weight is positive),
      grows with the reps past one, and grows with the weight. */
  lemma EpleyBounds(w: real, reps: int, w2: real, reps2: int)
    requires w >= 0.0 && reps >= 0
    ensures Epley(w, reps) >= w
    ensures w > 0.0 ==> (Epley(w, reps) == w <==> reps <= 1)
    ensures 1 <= reps <= reps2 ==> Epley(w, reps) <= Epley(w, reps2)
    ensures w <= w2 ==> Epley(w, reps) <= Epley(w2, reps)
  {
    var f := 1.0 + reps as real / 30.0;
    if reps != 1 {
      MulAtMost(w, 1.0, f);
      if w > 0.0 && reps > 1 {
        MulBelow(w, 1.0, f);
      }
    }
    if 1 <= reps <= reps2 && reps2 != 1 {
      var f2 := 1.0 + reps2 as real / 30.0;
      MulAtMost(w, 1.0, f2);
      MulAtMost(w, f, f2);
    }
    if w <= w2 && reps != 1 {
      ScaleAtMost(w, w2, f);
    }
  }

  lemma MulAtMost(a: real, b: real, c: real)
    requires a >= 0.0 && b <= c
    ensures a * b <= a * c
  {
    assert a * c - a * b == a * (c - b);
  }

  lemma ScaleAtMost(a: real, b: real, c: real)
    requires a <= b && c >= 0.0
    ensures a * c <= b * c
  {
    assert b * c - a * c == (b - a) * c;
  }

  lemma MulBelow(a: real, b: real, c: real)
    requires a > 0.0 && b < c
    ensures a * b < a * c
  {
    assert a * c - a * b == a * (c - b);
  }

  /** `formattedRecord`: "W unit × R" with the weight truncated. */
  function FormattedRecord(r: PersonalRecord): string {
    IntToString(Trunc(r.weight)) + " " + Abbreviation(r.weightUnit) + " × " + IntToString(r.reps)
  }

  /** Splitting the display string at spaces gives back the truncated
      weight, the unit and the reps. */
  lemma FormattedRecordParses(r: PersonalRecord)
    ensures var parts := SplitOn(FormattedRecord(r), ' ');
      && |parts| == 4
      && ParseInt(parts[0]) == Some(Trunc(r.weight))
      && ParseWeightUnit(parts[1]) == Some(r.weightUnit)
      && parts[2] == "×"
      && ParseInt(parts[3]) == Some(r.reps)
  {
    var w := IntToString(Trunc(r.weight));
    var u := Abbreviation(r.weightUnit);
    var n := IntToString(r.reps);
    NoSpaceInNumber(Trunc(r.weight));
    NoSpaceInNumber(r.reps);
    assert ' ' !in u;
    assert FormattedRecord(r) == w + [' '] + (u + [' '] + ("×" + [' '] + n));
    SplitOnConcat(w, ' ', u + [' '] + ("×" + [' '] + n));
    SplitOnConcat(u, ' ', "×" + [' '] + n);
    SplitOnConcat("×", ' ', n);
    SplitOnNone(n, ' ');
    IntToStringRoundTrip(Trunc(r.weight));
    IntToStringRoundTrip(r.reps);
    WeightUnitRawValues(r.weightUnit, r.weightUnit);
  }

  // ---------------------------------------------------------------------
  // Codec

  function Encode(r: PersonalRecord): (d: Doc)
    ensures "workoutLogId" in d <==> r.workoutLogId.Some?
  {
    var data := map[
      "id" := VString(r.id),
      "userId" := VString(r.userId),
      "exerciseName" := VString(r.exerciseName),
      "weight" := VDouble(r.weight),
      "reps" := VInt(r.reps),
      "weightUnit" := VString(RawValue(r.weightUnit)),
      "achievedAt" := VDate(r.achievedAt)];
    PutIfPresent(data, "workoutLogId", OptString(r.workoutLogId))
  }

  /** `PersonalRecord(from:)`: id, userId, exerciseName, a Double weight
      and an Int reps are required; an unknown unit is pounds and a
      missing date is the decoding time `now`. */
  function Decode(d: Doc, now: Date): (r: Option<PersonalRecord>)
    ensures r.Some? <==>
      && GetString(d, "id").Some? && GetString(d, "userId").Some? && GetString(d, "exerciseName").Some?
      && GetDouble(d, "weight").Some? && GetInt(d, "reps").Some?
    ensures r.Some? ==> Some(r.value.id) == GetString(d, "id") && Some(r.value.userId) == GetString(d, "userId")
    ensures r.Some? ==> Some(r.value.exerciseName) == GetString(d, "exerciseName")
    ensures r.Some? ==> Some(r.value.weight) == GetDouble(d, "weight") && Some(r.value.reps) == GetInt(d, "reps")
    ensures r.Some? ==> r.value.weightUnit == DecodeWeightUnit(d)
  {
    match (GetString(d, "id"), GetString(d, "userId"), GetString(d, "exerciseName"), GetDouble(d, "weight"), GetInt(d, "reps"))
    case (Some(id), Some(userId), Some(exerciseName), Some(weight), Some(reps)) =>
      Some(PersonalRecord(
        id, userId, exerciseName, weight, reps,
        DecodeWeightUnit(d),
        GetDate(d, "achievedAt").GetOr(now),
        GetString(d, "workoutLogId")))
    case _ => None
  }

  lemma EncodeIdentity(r: PersonalRecord)
    ensures GetString(Encode(r), "id") == Some(r.id) && GetString(Encode(r), "userId") == Some(r.userId)
  {
  }

  lemma EncodeLift(r: PersonalRecord)
    ensures GetString(Encode(r), "exerciseName") == Some(r.exerciseName)
    ensures GetDouble(Encode(r), "weight") == Some(r.weight) && GetInt(Encode(r), "reps") == Some(r.reps)
  {
  }

  lemma EncodeContext(r: PersonalRecord)
    ensures DecodeWeightUnit(Encode(r)) == r.weightUnit
    ensures GetDate(Encode(r), "achievedAt") == Some(r.achievedAt)
    ensures GetString(Encode(r), "workoutLogId") == r.workoutLogId
  {
    WeightUnitRawValues(r.weightUnit, r.weightUnit);
  }

  /** With or without a workout log id, decoding the encoding gives back
      the record. */
  lemma RoundTrip(r: PersonalRecord, now: Date)
    ensures Decode(Encode(r), now) == Some(r)
  {
    EncodeIdentity(r);
    EncodeLift(r);
    EncodeContext(r);
  }

  /** A weight stored as an Int is not read as a Double: the row is
      rejected. */
  lemma DecodeRejectsIntWeight(id: string, userId: string, name: string, w: int, reps: int, now: Date)
    ensures Decode(map["id" := VString(id), "userId" := VString(userId), "exerciseName" := VString(name),
                       "weight" := VInt(w), "reps" := VInt(reps)], now) == None
  {
    var d := map["id" := VString(id), "userId" := VString(userId), "exerciseName" := VString(name),
                 "weight" := VInt(w), "reps" := VInt(reps)];
    assert GetDouble(d, "weight") == None;
  }

  /** Only the required keys: pounds, achieved `now`, no workout log. */
  lemma DecodeDefaults(id: string, userId: string, name: string, w: real, reps: int, now: Date)
    ensures Decode(map["id" := VString(id), "userId" := VString(userId), "exerciseName" := VString(name),
                       "weight" := VDouble(w), "reps" := VInt(reps)], now) ==
      Some(PersonalRecord(id, userId, name, w, reps, Pounds, now, None))
  {
    var d := map["id" := VString(id), "userId" := VString(userId), "exerciseName" := VString(name),
                 "weight" := VDouble(w), "reps" := VInt(reps)];
    assert GetString(d, "weightUnit") == None;
  }

  // ---------------------------------------------------------------------
  // Progress

  datatype ProgressDataPoint = ProgressDataPoint(date: Date, weight: real, reps: int, volume: real)

  /** `ProgressDataPoint.estimated1RM`: the same estimate as a record's. */
  function PointEstimated1RM(p: ProgressDataPoint): (e: real)
    ensures forall r: PersonalRecord :: r.weight == p.weight && r.reps == p.reps ==> Estimated1RM(r) == e
  {
    Epley(p.weight, p.reps)
  }

  datatype ExerciseProgress = ExerciseProgress(exerciseName: string, dataPoints: seq<ProgressDataPoint>)

  function MaxPointWeight(pts: seq<ProgressDataPoint>): (m: real)
    requires pts != []
    ensures exists i :: 0 <= i < |pts| && pts[i].weight == m
    ensures forall i :: 0 <= i < |pts| ==> pts[i].weight <= m
  {
    if |pts| == 1 then pts[0].weight
    else
      var rest := MaxPointWeight(pts[1..]);
      assert forall i :: 1 <= i < |pts| ==> pts[i] == pts[1..][i - 1];
      if pts[0].weight >= rest then pts[0].weight else rest
  }

  /** `maxWeight`: the greatest point weight, 0 without points. */
  function MaxWeight(p: ExerciseProgress): (m: real)
    ensures p.dataPoints == [] ==> m == 0.0
    ensures p.dataPoints != [] ==> exists i :: 0 <= i < |p.dataPoints| && p.dataPoints[i].weight == m
    ensures forall i :: 0 <= i < |p.dataPoints| ==> p.dataPoints[i].weight <= m
  {
    if p.dataPoints == [] then 0.0 else MaxPointWeight(p.dataPoints)
  }

  /** `latestWeight`: the last point's weight, 0 without points. */
  function LatestWeight(p: ExerciseProgress): real {
    if p.dataPoints == [] then 0.0 else p.dataPoints[|p.dataPoints| - 1].weight
  }

  /** `progressPercentage`: the change from the first to the last weight
      in percent of the first, 0 without points or a first weight that is
      not positive. */
  function ProgressPercentage(p: ExerciseProgress): real {
    if p.dataPoints == [] || p.dataPoints[0].weight <= 0.0 then 0.0
    else
      var first := p.dataPoints[0].weight;
      (LatestWeight(p) - first) / first * 100.0
  }

  /** The latest weight never exceeds the maximum; the percentage is 0 for
      a single point or a first weight that is not positive, and otherwise
      has the sign of the change from first to last. */
  lemma ProgressFacts(p: ExerciseProgress)
    ensures LatestWeight(p) <= MaxWeight(p)
    ensures |p.dataPoints| <= 1 ==> ProgressPercentage(p) == 0.0
    ensures p.dataPoints != [] && p.dataPoints[0].weight <= 0.0 ==> ProgressPercentage(p) == 0.0
    ensures p.dataPoints != [] && p.dataPoints[0].weight > 0.0 ==>
      (ProgressPercentage(p) > 0.0 <==> LatestWeight(p) > p.dataPoints[0].weight) &&
      (ProgressPercentage(p) == 0.0 <==> LatestWeight(p) == p.dataPoints[0].weight)
  {
    if p.dataPoints != [] && p.dataPoints[0].weight > 0.0 {
      var first := p.dataPoints[0].weight;
      var delta := LatestWeight(p) - first;
      assert ProgressPercentage(p) == delta / first * 100.0;
      if delta > 0.0 { assert delta / first > 0.0; }
      if delta < 0.0 { assert delta / first < 0.0; }
    }
  }
}
