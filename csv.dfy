/** CSV fields as `ExportManager` writes them: the `escapedForCSV` quoting
    of rules 6 and 7 of section 2 of RFC 4180, fields joined with commas,
    and a reader for one record that inverts them. The reader is laxer than
    RFC 4180: it also takes unquoted fields holding quotes or line breaks. */
module Csv {
  import opened Wrappers
  import opened Seqs

  /** A field that must be enclosed in double quotes. */
  predicate NeedsQuoting(s: string) {
    ',' in s || '"' in s || '\n' in s
  }

  /** Every double quote written twice. */
  function DoubleQuotes(s: string): (r: string)
    ensures |r| >= |s|
  {
    if s == [] then []
    else (if s[0] == '"' then "\"\"" else [s[0]]) + DoubleQuotes(s[1..])
  }

  /** `escapedForCSV` */
  function Escape(s: string): (r: string)
    ensures !NeedsQuoting(s) ==> r == s
    ensures NeedsQuoting(s) ==> |r| >= 2 && r[0] == '"' && r[|r| - 1] == '"' && r[1..|r| - 1] == DoubleQuotes(s)
  {
    if NeedsQuoting(s) then "\"" + DoubleQuotes(s) + "\"" else s
  }

  /** Every doubled double quote written once. */
  function CollapseQuotes(s: string): string {
    if |s| >= 2 && s[0] == '"' && s[1] == '"' then "\"" + CollapseQuotes(s[2..])
    else if s == [] then []
    else [s[0]] + CollapseQuotes(s[1..])
  }

  lemma {:induction false} CollapseDoubleQuotes(s: string)
    ensures CollapseQuotes(DoubleQuotes(s)) == s
  {
    if s != [] {
      CollapseDoubleQuotes(s[1..]);
      if s[0] == '"' {
        assert DoubleQuotes(s) == "\"\"" + DoubleQuotes(s[1..]);
        assert DoubleQuotes(s)[2..] == DoubleQuotes(s[1..]);
      } else {
        assert DoubleQuotes(s) == [s[0]] + DoubleQuotes(s[1..]);
        assert DoubleQuotes(s)[1..] == DoubleQuotes(s[1..]);
      }
      assert s == [s[0]] + s[1..];
    }
  }

  /** The inverse of `Escape`: a quoted field loses its outer quotes and
      its doubled quotes; any other field is taken as it is. */
  function Unescape(e: string): string {
    if |e| >= 2 && e[0] == '"' && e[|e| - 1] == '"' then CollapseQuotes(e[1..|e| - 1]) else e
  }

  /** Removing the outer quotes and collapsing `""` to `"` gives back the
      original text, quoted or not. */
  lemma EscapeRoundTrip(s: string)
    ensures Unescape(Escape(s)) == s
  {
    if NeedsQuoting(s) {
      CollapseDoubleQuotes(s);
    } else if |s| >= 2 {
      assert s[0] != '"' by { assert s[0] in s; }
    }
  }

  /** `fields.joined(separator: ",")` */
  function Join(fields: seq<string>): string {
    if fields == [] then ""
    else if |fields| == 1 then fields[0]
    else fields[0] + "," + Join(fields[1..])
  }

  /** The body of a quoted field, read up to its closing quote: the field
      with doubled quotes collapsed, and what follows the closing quote. */
  function ParseQuoted(s: string): (r: Option<(string, string)>)
    ensures r.Some? ==> |r.value.1| < |s|
  {
    if s == [] then None
    else if s[0] == '"' && |s| >= 2 && s[1] == '"' then
      var r := ParseQuoted(s[2..]);
      if r.None? then None else Some(("\"" + r.value.0, r.value.1))
    else if s[0] == '"' then Some(("", s[1..]))
    else
      var r := ParseQuoted(s[1..]);
      if r.None? then None else Some(([s[0]] + r.value.0, r.value.1))
  }

  /** The index of the first comma, if any. */
  function FirstComma(s: string): (r: Option<nat>)
    ensures r.None? <==> ',' !in s
    ensures r.Some? ==> r.value < |s| && s[r.value] == ',' && ',' !in s[..r.value]
  {
    if s == [] then None
    else if s[0] == ',' then Some(0)
    else
      match FirstComma(s[1..])
      case None => None
      case Some(i) =>
        assert s[..i + 1] == [s[0]] + s[1..][..i];
        Some(i + 1)
  }

  /** One record of comma-separated fields, each quoted or plain. */
  function ParseRecord(s: string): Option<seq<string>>
    decreases |s|
  {
    if |s| > 0 && s[0] == '"' then
      match ParseQuoted(s[1..])
      case None => None
      case Some((f, rest)) =>
        if rest == [] then Some([f])
        else if rest[0] != ',' then None
        else match ParseRecord(rest[1..])
          case None => None
          case Some(fs) => Some([f] + fs)
    else
      match FirstComma(s)
      case None => Some([s])
      case Some(i) =>
        match ParseRecord(s[i + 1..])
        case None => None
        case Some(fs) => Some([s[..i]] + fs)
  }

  lemma {:induction false} ParseQuotedDoubled(s: string, rest: string)
    requires rest == [] || rest[0] != '"'
    ensures ParseQuoted(DoubleQuotes(s) + "\"" + rest) == Some((s, rest))
  {
    if s == [] {
      assert DoubleQuotes(s) + "\"" + rest == "\"" + rest;
      ClosingQuote(rest);
    } else {
      ParseQuotedDoubled(s[1..], rest);
      if s[0] == '"' {
        DoubledQuoteStep(s, rest);
      } else {
        DoubledPlainStep(s, rest);
      }
    }
  }

  /** One doubled quote of the escaped text reads back as one quote. */
  lemma DoubledQuoteStep(s: string, rest: string)
    requires s != [] && s[0] == '"'
    requires ParseQuoted(DoubleQuotes(s[1..]) + "\"" + rest) == Some((s[1..], rest))
    ensures ParseQuoted(DoubleQuotes(s) + "\"" + rest) == Some((s, rest))
  {
    var u := DoubleQuotes(s[1..]) + "\"" + rest;
    assert DoubleQuotes(s) == "\"\"" + DoubleQuotes(s[1..]);
    assert DoubleQuotes(s) + "\"" + rest == "\"\"" + u;
    QuotePairStep(u, s[1..], rest);
    assert "\"" + s[1..] == s;
  }

  /** Any other character of the escaped text reads back as itself. */
  lemma DoubledPlainStep(s: string, rest: string)
    requires s != [] && s[0] != '"'
    requires ParseQuoted(DoubleQuotes(s[1..]) + "\"" + rest) == Some((s[1..], rest))
    ensures ParseQuoted(DoubleQuotes(s) + "\"" + rest) == Some((s, rest))
  {
    var u := DoubleQuotes(s[1..]) + "\"" + rest;
    assert DoubleQuotes(s) == [s[0]] + DoubleQuotes(s[1..]);
    assert DoubleQuotes(s) + "\"" + rest == [s[0]] + u;
    PlainCharStep(s[0], u, s[1..], rest);
    assert [s[0]] + s[1..] == s;
  }

  lemma ClosingQuote(rest: string)
    requires rest == [] || rest[0] != '"'
    ensures ParseQuoted("\"" + rest) == Some(("", rest))
  {
    assert ("\"" + rest)[1..] == rest;
  }

  lemma QuotePairStep(u: string, f: string, rest: string)
    requires ParseQuoted(u) == Some((f, rest))
    ensures ParseQuoted("\"\"" + u) == Some(("\"" + f, rest))
  {
    assert ("\"\"" + u)[2..] == u;
  }

  lemma PlainCharStep(c: char, u: string, f: string, rest: string)
    requires c != '"' && ParseQuoted(u) == Some((f, rest))
    ensures ParseQuoted([c] + u) == Some(([c] + f, rest))
  {
    assert ([c] + u)[1..] == u;
  }

  lemma QuotedHead(f: string, tail: string)
    requires NeedsQuoting(f)
    requires tail == [] || tail[0] == ','
    ensures ParseQuoted((Escape(f) + tail)[1..]) == Some((f, tail))
  {
    assert (Escape(f) + tail)[1..] == DoubleQuotes(f) + "\"" + tail;
    ParseQuotedDoubled(f, tail);
  }

  lemma PlainHead(f: string, tail: string)
    requires !NeedsQuoting(f)
    requires tail == [] || tail[0] == ','
    ensures |f + tail| > 0 ==> (f + tail)[0] != '"'
    ensures FirstComma(f + tail) == if tail == [] then None else Some(|f|)
  {
    var s := f + tail;
    if |f| > 0 { assert f[0] in f; }
    if tail != [] {
      assert s[|f|] == ',' && s[..|f|] == f;
      FirstCommaAt(s, |f|);
    }
  }

  lemma FirstCommaAt(s: string, i: nat)
    requires i < |s| && s[i] == ',' && ',' !in s[..i]
    ensures FirstComma(s) == Some(i)
  {
    var r := FirstComma(s);
    assert r.Some? by { assert s[i] in s; }
  }

  lemma PlainRecordStep(s: string, i: nat, fs: seq<string>)
    requires |s| > 0 ==> s[0] != '"'
    requires FirstComma(s) == Some(i)
    requires ParseRecord(s[i + 1..]) == Some(fs)
    ensures ParseRecord(s) == Some([s[..i]] + fs)
  {
  }

  lemma PlainRecordLast(s: string)
    requires |s| > 0 ==> s[0] != '"'
    requires FirstComma(s) == None
    ensures ParseRecord(s) == Some([s])
  {
  }

  lemma QuotedRecordStep(s: string, f: string, tail: string, fs: seq<string>)
    requires |s| > 0 && s[0] == '"'
    requires ParseQuoted(s[1..]) == Some((f, tail))
    requires tail == [] ==> fs == []
    requires tail != [] ==> tail[0] == ',' && ParseRecord(tail[1..]) == Some(fs)
    ensures ParseRecord(s) == Some([f] + fs)
  {
    if tail == [] { assert [f] + fs == [f]; }
  }

  /** Reading back a record of escaped fields gives back the fields. */
  lemma {:induction false} ParseJoinEscaped(fields: seq<string>)
    requires fields != []
    ensures ParseRecord(Join(Map(Escape, fields))) == Some(fields)
  {
    var es := Map(Escape, fields);
    var f := fields[0];
    var tail := if |fields| == 1 then "" else "," + Join(es[1..]);
    var s := Join(es);
    var rest := if |fields| == 1 then [] else fields[1..];
    assert s == Escape(f) + tail;
    assert fields == [f] + rest;
    if |fields| > 1 {
      assert es[1..] == Map(Escape, fields[1..]);
      ParseJoinEscaped(fields[1..]);
      assert tail[1..] == Join(es[1..]);
    }
    if NeedsQuoting(f) {
      QuotedHead(f, tail);
      QuotedRecordStep(s, f, tail, rest);
    } else {
      PlainHead(f, tail);
      if |fields| > 1 {
        assert s[|f| + 1..] == Join(es[1..]);
        assert s[..|f|] == f;
        PlainRecordStep(s, |f|, rest);
      } else {
        assert s == f + tail && FirstComma(s) == None;
        PlainRecordLast(s);
        assert fields == [f];
      }
    }
  }
}
