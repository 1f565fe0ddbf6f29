/**
 * The CSV text format the export writes: fields joined by `,`, each record
 * ended by a single `\n`, and a field that contains `,`, `"` or a line break
 * written between double quotes with each inner `"` doubled (section 2,
 * rules 6 and 7, of RFC 4180).
 *
 * Beside the writer's pieces, a reader of the same format, so that what the
 * writer promises can be stated as a round trip: reading back a written
 * record gives the original field texts.
 */
module CsvFormat {

  import opened Wrappers

  /** `parts.join(sep)`. */
  function Join(parts: seq<string>, sep: string): (r: string)
    ensures parts == [] ==> r == ""
    ensures |parts| == 1 ==> r == parts[0]
  {
    if |parts| <= 1 then (if parts == [] then "" else parts[0])
    else parts[0] + sep + Join(parts[1..], sep)
  }

  /** Joining one more part: alone when nothing precedes it, otherwise after the separator. */
  lemma {:induction false} JoinSnoc(parts: seq<string>, last: seq<string>, sep: string)
    requires |last| <= 1
    ensures Join(parts + last, sep) == (if last == [] then Join(parts, sep)
      else if parts == [] then last[0] else Join(parts, sep) + sep + last[0])
  {
    if last == [] {
      assert parts + last == parts;
    } else if parts == [] {
      assert parts + last == last;
    } else if |parts| > 1 {
      assert (parts + last)[1..] == parts[1..] + last;
      JoinSnoc(parts[1..], last, sep);
    } else {
      assert parts + last == [parts[0], last[0]];
    }
  }

  /** A field that must be quoted: it holds a comma, a double quote or a line break. */
  predicate NeedsQuoting(s: string) {
    ',' in s || '"' in s || '\n' in s
  }

  /** `s.replace(/"/g, '""')`. */
  function DoubleQuotes(s: string): (r: string)
    ensures |r| >= |s|
    ensures '"' !in s ==> r == s
  {
    if s == [] then []
    else
      var rest := DoubleQuotes(s[1..]);
      assert '"' !in s ==> '"' !in s[1..] && s == [s[0]] + s[1..];
      if s[0] == '"' then "\"\"" + rest else [s[0]] + rest
  }

  /** One field as written: quoted when it must be, otherwise unchanged. */
  function Escape(s: string): (r: string)
    ensures !NeedsQuoting(s) ==> r == s
    ensures NeedsQuoting(s) ==> |r| >= |s| + 2 && r[0] == '"' && r[|r| - 1] == '"'
  {
    if NeedsQuoting(s) then "\"" + DoubleQuotes(s) + "\"" else s
  }

  function EscapeAll(fields: seq<string>): (r: seq<string>)
    ensures |r| == |fields|
    ensures forall i :: 0 <= i < |fields| ==> r[i] == Escape(fields[i])
  {
    seq(|fields|, i requires 0 <= i < |fields| => Escape(fields[i]))
  }

  /** One record as written: `values.join(',') + '\n'`. */
  function Line(values: seq<string>): string {
    Join(values, ",") + "\n"
  }

  // ---------------------------------------------------------------- reader

  /** An unquoted field: the characters up to the next `,`, line break or the end. */
  function ReadBare(t: string): (r: (string, string))
    ensures r.0 + r.1 == t
    ensures ',' !in r.0 && '\n' !in r.0
    ensures r.1 == [] || r.1[0] == ',' || r.1[0] == '\n'
  {
    if t == [] || t[0] == ',' || t[0] == '\n' then ("", t)
    else
      var (f, rest) := ReadBare(t[1..]);
      assert [t[0]] + f + rest == [t[0]] + (f + rest);
      ([t[0]] + f, rest)
  }

  /**
   * A quoted field after its opening quote: the characters up to the closing
   * quote, with each `""` read as one `"`, and the text after the closing
   * quote; None when the closing quote is missing.
   */
  function ReadQuoted(t: string): (r: Option<(string, string)>)
    ensures r.Some? ==> |r.value.1| < |t|
  {
    if t == [] then None
    else if t[0] == '"' then
      if |t| > 1 && t[1] == '"' then
        match ReadQuoted(t[2..])
        case None => None
        case Some((f, rest)) => Some(("\"" + f, rest))
      else Some(("", t[1..]))
    else
      match ReadQuoted(t[1..])
      case None => None
      case Some((f, rest)) => Some(([t[0]] + f, rest))
  }

  /** One field, quoted or not, and the text after it. */
  function ReadField(t: string): (r: Option<(string, string)>)
    ensures r.Some? ==> |r.value.1| <= |t|
    ensures t == [] || t[0] != '"' ==> r == Some(ReadBare(t))
  {
    if t != [] && t[0] == '"' then ReadQuoted(t[1..]) else Some(ReadBare(t))
  }

  /**
   * One record: fields separated by `,` up to a line break, and the text
   * after the line break; None when a field is malformed, when a quoted
   * field is followed by anything but `,` or a line break, or when the text
   * ends before the line break.
   */
  function ReadRecord(t: string): (r: Option<(seq<string>, string)>)
    ensures r.Some? ==> |r.value.0| > 0 && |r.value.1| < |t|
    decreases |t|
  {
    match ReadField(t)
    case None => None
    case Some((f, rest)) =>
      if rest == [] then None
      else if rest[0] == '\n' then Some(([f], rest[1..]))
      else if rest[0] == ',' then
        match ReadRecord(rest[1..])
        case None => None
        case Some((fs, after)) => Some(([f] + fs, after))
      else None
  }

  /** A whole text as a sequence of records; None when any record is malformed. */
  function ReadDocument(t: string): (r: Option<seq<seq<string>>>)
    ensures r.Some? ==> forall i :: 0 <= i < |r.value| ==> |r.value[i]| > 0
    decreases |t|
  {
    if t == [] then Some([])
    else
      match ReadRecord(t)
      case None => None
      case Some((record, rest)) =>
        match ReadDocument(rest)
        case None => None
        case Some(records) => Some([record] + records)
  }

  // ------------------------------------------------------------ round trips

  /** A field end: the end of the text, a `,` or a line break. */
  predicate FieldEnd(rest: string) {
    rest == [] || rest[0] == ',' || rest[0] == '\n'
  }

  /** A doubled quote inside a quoted field is read as one quote. */
  lemma ReadQuotedPair(t: string)
    ensures ReadQuoted("\"\"" + t) == match ReadQuoted(t)
      case None => None
      case Some((f, rest)) => Some(("\"" + f, rest))
  {
    assert ("\"\"" + t)[2..] == t;
  }

  /** Any other character inside a quoted field is read as itself. */
  lemma ReadQuotedChar(c: char, t: string)
    requires c != '"'
    ensures ReadQuoted([c] + t) == match ReadQuoted(t)
      case None => None
      case Some((f, rest)) => Some(([c] + f, rest))
  {
    assert ([c] + t)[1..] == t;
  }

  /** One step of the quoted round trip: a quote, written doubled, is read back as one quote. */
  lemma QuoteStep(s: string, rest: string)
    requires s != [] && s[0] == '"'
    requires ReadQuoted(DoubleQuotes(s[1..]) + "\"" + rest) == Some((s[1..], rest))
    ensures ReadQuoted(DoubleQuotes(s) + "\"" + rest) == Some((s, rest))
  {
    var t := DoubleQuotes(s[1..]) + "\"" + rest;
    var x := DoubleQuotes(s) + "\"" + rest;
    assert DoubleQuotes(s) == "\"\"" + DoubleQuotes(s[1..]);
    assert x == "\"\"" + t;
    ReadQuotedPair(t);
    assert "\"" + s[1..] == s;
  }

  /** One step of the quoted round trip: any other character is read back as itself. */
  lemma CharStep(s: string, rest: string)
    requires s != [] && s[0] != '"'
    requires ReadQuoted(DoubleQuotes(s[1..]) + "\"" + rest) == Some((s[1..], rest))
    ensures ReadQuoted(DoubleQuotes(s) + "\"" + rest) == Some((s, rest))
  {
    var t := DoubleQuotes(s[1..]) + "\"" + rest;
    var x := DoubleQuotes(s) + "\"" + rest;
    assert DoubleQuotes(s) == [s[0]] + DoubleQuotes(s[1..]);
    assert x == [s[0]] + t;
    ReadQuotedChar(s[0], t);
    assert [s[0]] + s[1..] == s;
  }

  /** Reading a written quoted field back, after its opening quote, gives the original text. */
  lemma {:induction false} QuotedRoundTrip(s: string, rest: string)
    requires FieldEnd(rest)
    ensures ReadQuoted(DoubleQuotes(s) + "\"" + rest) == Some((s, rest))
  {
    if s == [] {
      assert DoubleQuotes(s) + "\"" + rest == "\"" + rest;
      assert ("\"" + rest)[1..] == rest;
    } else {
      QuotedRoundTrip(s[1..], rest);
      if s[0] == '"' {
        QuoteStep(s, rest);
      } else {
        CharStep(s, rest);
      }
    }
  }

  /** Reading back a field that holds no comma and no line break, as it stands, gives the field. */
  lemma {:induction false} BareRoundTrip(s: string, rest: string)
    requires ',' !in s && '\n' !in s
    requires FieldEnd(rest)
    ensures ReadBare(s + rest) == (s, rest)
  {
    if s != [] {
      var t := s + rest;
      assert s[0] in s;
      assert t[0] == s[0];
      assert t[1..] == s[1..] + rest;
      assert forall c :: c in s[1..] ==> c in s;
      BareRoundTrip(s[1..], rest);
      assert ReadBare(t) == ([t[0]] + ReadBare(t[1..]).0, ReadBare(t[1..]).1);
      assert [s[0]] + s[1..] == s;
    } else {
      assert s + rest == rest;
    }
  }

  /** Reading an escaped field back gives the original text, whatever it holds. */
  lemma FieldRoundTrip(s: string, rest: string)
    requires FieldEnd(rest)
    ensures ReadField(Escape(s) + rest) == Some((s, rest))
  {
    if NeedsQuoting(s) {
      var t := DoubleQuotes(s) + "\"" + rest;
      assert Escape(s) + rest == "\"" + t;
      assert ("\"" + t)[1..] == t;
      QuotedRoundTrip(s, rest);
    } else {
      BareRoundTrip(s, rest);
      assert s == [] || s[0] != '"' by {
        if s != [] { assert s[0] in s; }
      }
    }
  }

  /** Reading a written record back gives its fields and the text after it. */
  lemma {:induction false} RecordRoundTrip(fields: seq<string>, rest: string)
    requires |fields| > 0
    ensures ReadRecord(Line(EscapeAll(fields)) + rest) == Some((fields, rest))
  {
    var escaped := EscapeAll(fields);
    if |fields| == 1 {
      var after := "\n" + rest;
      assert Line(escaped) + rest == Escape(fields[0]) + after;
      FieldRoundTrip(fields[0], after);
      assert after[1..] == rest;
      assert [fields[0]] == fields;
    } else {
      var tail := Line(EscapeAll(fields[1..])) + rest;
      var after := "," + tail;
      assert EscapeAll(fields[1..]) == escaped[1..];
      assert Join(escaped, ",") == escaped[0] + "," + Join(escaped[1..], ",");
      assert Line(escaped) + rest == Escape(fields[0]) + after;
      FieldRoundTrip(fields[0], after);
      assert after[1..] == tail;
      RecordRoundTrip(fields[1..], rest);
      assert [fields[0]] + fields[1..] == fields;
    }
  }

  /** A written record in front of a readable text is read as one more record. */
  lemma DocumentRoundTrip(fields: seq<string>, rest: string, records: seq<seq<string>>)
    requires |fields| > 0
    requires ReadDocument(rest) == Some(records)
    ensures ReadDocument(Line(EscapeAll(fields)) + rest) == Some([fields] + records)
  {
    RecordRoundTrip(fields, rest);
  }
}
