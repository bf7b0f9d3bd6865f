/** Firestore documents as the Swift code sees them: `[String: Any]`
    dictionaries whose values are read back with conditional casts
    (`data["k"] as? String`). A value carries its dynamic type as a tag, and
    a cast succeeds exactly when the tag matches. */
module Document {
  import opened Wrappers
  import opened Seqs

  /** A point in time (Foundation `Date`), as an integer instant. */
  type Date = int

  datatype Value =
    | VString(s: string)
    | VInt(i: int)
    | VDouble(d: real)
    | VBool(b: bool)
    | VDate(date: Date)         // a Foundation Date
    | VTimestamp(stamp: Date)   // a Firestore Timestamp
    | VArray(items: seq<Value>)
    | VDict(fields: map<string, Value>)

  type Doc = map<string, Value>

  /** `data[k] as? String` */
  function GetString(d: Doc, k: string): Option<string> {
    if k in d && d[k].VString? then Some(d[k].s) else None
  }

  /** `data[k] as? Int` */
  function GetInt(d: Doc, k: string): Option<int> {
    if k in d && d[k].VInt? then Some(d[k].i) else None
  }

  /** `data[k] as? Double` (also `as? TimeInterval`) */
  function GetDouble(d: Doc, k: string): Option<real> {
    if k in d && d[k].VDouble? then Some(d[k].d) else None
  }

  /** `data[k] as? Bool` */
  function GetBool(d: Doc, k: string): Option<bool> {
    if k in d && d[k].VBool? then Some(d[k].b) else None
  }

  /** `data[k] as? Date`: a Timestamp is not a Date. */
  function GetDate(d: Doc, k: string): Option<Date> {
    if k in d && d[k].VDate? then Some(d[k].date) else None
  }

  /** `if let v = o { data[k] = v }`: an absent optional leaves no key. */
  function PutIfPresent(d: Doc, k: string, o: Option<Value>): (r: Doc)
    ensures k in r <==> k in d || o.Some?
    ensures o.Some? ==> r[k] == o.value
    ensures o.None? ==> r == d
  {
    if o.Some? then d[k := o.value] else d
  }

  lemma PutIfPresentKeeps(d: Doc, k: string, o: Option<Value>, other: string)
    requires other != k && other in d
    ensures other in PutIfPresent(d, k, o) && PutIfPresent(d, k, o)[other] == d[other]
  {
  }

  function OptString(o: Option<string>): Option<Value> {
    if o.Some? then Some(VString(o.value)) else None
  }

  function OptInt(o: Option<int>): Option<Value> {
    if o.Some? then Some(VInt(o.value)) else None
  }

  function OptDouble(o: Option<real>): Option<Value> {
    if o.Some? then Some(VDouble(o.value)) else None
  }

  function OptDate(o: Option<Date>): Option<Value> {
    if o.Some? then Some(VDate(o.value)) else None
  }

  /** The cast of an array to `[[String: Any]]`: it succeeds only when every
      element is a dictionary. */
  function DictsOf(items: seq<Value>): (r: Option<seq<Doc>>)
    ensures r.Some? <==> forall i :: 0 <= i < |items| ==> items[i].VDict?
    ensures r.Some? ==> |r.value| == |items|
    ensures r.Some? ==> forall i :: 0 <= i < |items| ==> items[i] == VDict(r.value[i])
  {
    if items == [] then Some([])
    else if !items[0].VDict? then None
    else match DictsOf(items[1..])
      case None => None
      case Some(rest) => Some([items[0].fields] + rest)
  }

  /** `data[k] as? [[String: Any]]` */
  function GetDicts(d: Doc, k: string): Option<seq<Doc>> {
    if k in d && d[k].VArray? then DictsOf(d[k].items) else None
  }

  /** The nested-collection pattern of every decoder:
      `(data[k] as? [[String: Any]])?.compactMap(decode) ?? []`. */
  function Children<T>(d: Doc, k: string, decode: Doc -> Option<T>): seq<T> {
    match GetDicts(d, k)
    case Some(docs) => CompactMap(decode, docs)
    case None => []
  }

  /** `xs.map { $0.firestoreData }` stored as an array value. */
  function EncodeList<T>(encode: T -> Doc, xs: seq<T>): (r: seq<Value>)
    ensures |r| == |xs|
    ensures forall i :: 0 <= i < |xs| ==> r[i] == VDict(encode(xs[i]))
  {
    if xs == [] then [] else [VDict(encode(xs[0]))] + EncodeList(encode, xs[1..])
  }

  lemma {:induction false} DictsOfEncodeList<T>(encode: T -> Doc, xs: seq<T>)
    ensures DictsOf(EncodeList(encode, xs)) == Some(Map(encode, xs))
  {
    if xs != [] {
      assert EncodeList(encode, xs)[1..] == EncodeList(encode, xs[1..]);
      DictsOfEncodeList(encode, xs[1..]);
    }
  }

  /** An encoded child list decodes back to itself when each child does. */
  lemma ChildrenRoundTrip<T>(d: Doc, k: string, decode: Doc -> Option<T>, encode: T -> Doc, xs: seq<T>)
    requires k in d && d[k] == VArray(EncodeList(encode, xs))
    requires forall i :: 0 <= i < |xs| ==> decode(encode(xs[i])) == Some(xs[i])
    ensures Children(d, k, decode) == xs
  {
    DictsOfEncodeList(encode, xs);
    CompactMapOfMap(decode, encode, xs);
  }

  /** Malformed children are dropped silently: if some element is not a
      dictionary the whole list is empty, otherwise exactly the children
      that decode are kept. */
  lemma ChildrenDropMalformed<T>(d: Doc, k: string, decode: Doc -> Option<T>)
    requires k in d && d[k].VArray?
    ensures (exists i :: 0 <= i < |d[k].items| && !d[k].items[i].VDict?) ==> Children(d, k, decode) == []
    ensures (forall i :: 0 <= i < |d[k].items| ==> d[k].items[i].VDict?) ==>
      var docs := DictsOf(d[k].items).value;
      |Children(d, k, decode)| == CountSome(decode, docs) &&
      forall i :: 0 <= i < |Children(d, k, decode)| ==>
        exists j :: 0 <= j < |docs| && decode(docs[j]) == Some(Children(d, k, decode)[i])
  {
    if DictsOf(d[k].items).Some? {
      CompactMapCount(decode, DictsOf(d[k].items).value);
    }
  }
}
