/** WorkoutTracker/Models/Session.swift: a training session of library
    exercise references, its frequency text and its document codec. */
module Sessions {
  import opened Wrappers
  import opened Text
  import opened Document
  import SessionExercises

  datatype Session = Session(
    id: string,
    name: string,
    description: string,
    exercises: seq<SessionExercises.SessionExercise>,
    order: int,
    recommendedFrequencyPerWeek: Option<int>)

  /** `frequencyText`: "Recommended N×/week" when a frequency is set. */
  function FrequencyText(s: Session): (t: Option<string>)
    ensures t.None? <==> s.recommendedFrequencyPerWeek.None?
  {
    match s.recommendedFrequencyPerWeek
    case None => None
    case Some(freq) => Some("Recommended " + IntToString(freq) + "×/week")
  }

  /** The text carries the frequency: between the fixed prefix and suffix
      stands a number that parses back to it. */
  lemma FrequencyTextParses(s: Session)
    requires s.recommendedFrequencyPerWeek.Some?
    ensures var t := FrequencyText(s).value;
      && |t| >= 18
      && t[..12] == "Recommended "
      && t[|t| - 6..] == "×/week"
      && ParseInt(t[12..|t| - 6]) == Some(s.recommendedFrequencyPerWeek.value)
  {
    var n := IntToString(s.recommendedFrequencyPerWeek.value);
    var t := FrequencyText(s).value;
    assert t == "Recommended " + n + "×/week";
    assert t[12..|t| - 6] == n;
    IntToStringRoundTrip(s.recommendedFrequencyPerWeek.value);
  }

  function Encode(s: Session): (d: Doc)
    ensures "recommendedFrequencyPerWeek" in d <==> s.recommendedFrequencyPerWeek.Some?
  {
    var data := map[
      "id" := VString(s.id),
      "name" := VString(s.name),
      "description" := VString(s.description),
      "exercises" := VArray(EncodeList(SessionExercises.Encode, s.exercises)),
      "order" := VInt(s.order)];
    PutIfPresent(data, "recommendedFrequencyPerWeek", OptInt(s.recommendedFrequencyPerWeek))
  }

  /** `Session(from:)`: id and name are required; malformed exercises are
      dropped. */
  function Decode(d: Doc): (r: Option<Session>)
    ensures r.Some? <==> GetString(d, "id").Some? && GetString(d, "name").Some?
    ensures r.Some? ==> Some(r.value.id) == GetString(d, "id") && Some(r.value.name) == GetString(d, "name")
    ensures r.Some? ==> r.value.exercises == Children(d, "exercises", SessionExercises.Decode)
    ensures r.Some? ==> r.value.recommendedFrequencyPerWeek == GetInt(d, "recommendedFrequencyPerWeek")
  {
    match (GetString(d, "id"), GetString(d, "name"))
    case (Some(id), Some(name)) =>
      Some(Session(
        id, name,
        GetString(d, "description").GetOr(""),
        Children(d, "exercises", SessionExercises.Decode),
        GetInt(d, "order").GetOr(0),
        GetInt(d, "recommendedFrequencyPerWeek")))
    case _ => None
  }

  lemma EncodeFields(s: Session)
    ensures GetString(Encode(s), "id") == Some(s.id) && GetString(Encode(s), "name") == Some(s.name)
    ensures GetString(Encode(s), "description") == Some(s.description) && GetInt(Encode(s), "order") == Some(s.order)
    ensures GetInt(Encode(s), "recommendedFrequencyPerWeek") == s.recommendedFrequencyPerWeek
  {
  }

  lemma ExercisesRoundTrip(s: Session)
    ensures Children(Encode(s), "exercises", SessionExercises.Decode) == s.exercises
  {
    forall i | 0 <= i < |s.exercises| ensures SessionExercises.Decode(SessionExercises.Encode(s.exercises[i])) == Some(s.exercises[i]) {
      SessionExercises.RoundTrip(s.exercises[i]);
    }
    ChildrenRoundTrip(Encode(s), "exercises", SessionExercises.Decode, SessionExercises.Encode, s.exercises);
  }

  /** With or without a frequency, decoding the encoding gives back the
      session. */
  lemma RoundTrip(s: Session)
    ensures Decode(Encode(s)) == Some(s)
  {
    EncodeFields(s);
    ExercisesRoundTrip(s);
  }

  /** Only id and name: no description, exercises or frequency, order 0. */
  lemma DecodeDefaults(id: string, name: string)
    ensures Decode(map["id" := VString(id), "name" := VString(name)]) == Some(Session(id, name, "", [], 0, None))
  {
  }
}
