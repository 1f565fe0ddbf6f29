/**
 * `GET /api/export/csv` (server.js:524-579): one line of fifteen fields per
 * cluster, joined to its submission, under a fixed header line.
 *
 * A result row of the query is a map from the query's column names to
 * values; a name the query does not produce reads as `undefined`, as a
 * property of a JavaScript object does. JavaScript's `String(v)` for values
 * that are not strings is the parameter `show`.
 */
module CsvExport {

  import opened Wrappers
  import opened JsValues
  import opened Schema
  import opened Joins
  import opened CsvFormat
  import opened Sequences
  import opened Selection

  /** The header names, in column order (server.js:549-551). */
  const Headers: seq<string> := [
    "submission_id", "user_id", "session_timestamp", "session_lng", "session_lat",
    "cluster_id", "cluster_type", "voxel_count", "ground_area_m2",
    "centroid_lng", "centroid_lat", "centroid_height", "tags", "comment", "created_at"]

  // ------------------------------------------------------ the column lookup

  /** `pat` occurs in `s` at index `j`. */
  predicate OccursAt(s: string, pat: string, j: int) {
    0 <= j && j + |pat| <= |s| && s[j..j + |pat|] == pat
  }

  /** The first index where `pat` occurs in `s`. */
  function Find(s: string, pat: string): (r: Option<nat>)
    ensures r.None? ==> forall i :: !OccursAt(s, pat, i)
    ensures r.Some? ==> OccursAt(s, pat, r.value) && forall i :: 0 <= i < r.value ==> !OccursAt(s, pat, i)
  {
    if |s| < |pat| then None
    else if s[..|pat|] == pat then Some(0)
    else
      match Find(s[1..], pat)
      case None =>
        assert forall i :: 1 <= i ==> (OccursAt(s, pat, i) <==> OccursAt(s[1..], pat, i - 1));
        None
      case Some(i) =>
        assert forall k :: 1 <= k ==> (OccursAt(s, pat, k) <==> OccursAt(s[1..], pat, k - 1));
        Some(i + 1)
  }

  /** `s.replace(pat, rep)` with a string pattern: only the first occurrence is replaced. */
  function ReplaceFirst(s: string, pat: string, rep: string): (r: string)
  {
    match Find(s, pat)
    case None => s
    case Some(j) => s[..j] + rep + s[j + |pat|..]
  }

  /** The column first tried for header `h`: `h.replace('session_', 'user_')`. */
  function ColumnKey(h: string): string {
    ReplaceFirst(h, "session_", "user_")
  }

  /** A header that starts with `session_` is first looked up under `user_` and the rest of its name. */
  lemma SessionKey(h: string)
    requires |h| >= 8 && h[..8] == "session_"
    ensures ColumnKey(h) == "user_" + h[8..]
  {
    assert Find(h, "session_") == Some(0);
  }

  /** A character of every occurrence of `pat` is a character of `s`. */
  lemma OccurrenceChars(s: string, pat: string, j: nat, c: char)
    requires OccursAt(s, pat, j) && c in pat
    ensures c in s
  {
    var k :| 0 <= k < |pat| && pat[k] == c;
    assert s[j..j + |pat|][k] == s[j + k];
  }

  /**
   * A header shorter than `session_`, or missing one of its characters, is
   * looked up under its own name.
   */
  lemma PlainKey(h: string, c: char)
    requires c in "session_" && (|h| < 8 || c !in h)
    ensures ColumnKey(h) == h
  {
    var r := Find(h, "session_");
    if r.Some? {
      OccurrenceChars(h, "session_", r.value, c);
      assert false;
    }
  }

  /** The three `session_` headers are first looked up as `user_timestamp`, `user_lng` and `user_lat`. */
  lemma SessionKeys()
    ensures ColumnKey("session_timestamp") == "user_timestamp"
    ensures ColumnKey("session_lng") == "user_lng"
    ensures ColumnKey("session_lat") == "user_lat"
  {
    SessionKey("session_timestamp");
    assert "session_timestamp"[8..] == "timestamp";
    SessionKey("session_lng");
    assert "session_lng"[8..] == "lng";
    SessionKey("session_lat");
    assert "session_lat"[8..] == "lat";
  }

  /** The other twelve headers are looked up under their own names. */
  lemma PlainKeys()
    ensures forall k :: 0 <= k < |Headers| && k !in {2, 3, 4} ==> ColumnKey(Headers[k]) == Headers[k]
  {
    forall k | 0 <= k < |Headers| && k !in {2, 3, 4}
      ensures ColumnKey(Headers[k]) == Headers[k]
    {
      var c := if k == 0 then 'e' else if k == 5 then 'o' else if k == 6 then 'i' else 's';
      PlainKey(Headers[k], c);
    }
  }

  /** A result row: the query's column names and their values. */
  type Row = map<string, Value>

  /** `row[k]`: `undefined` for a column the query does not produce. */
  function Get(row: Row, k: string): Value {
    if k in row then row[k] else Undefined
  }

  /** `row[h.replace('session_', 'user_')] || row[h]` (server.js:557). */
  function Lookup(row: Row, h: string): Value {
    Or(Get(row, ColumnKey(h)), Get(row, h))
  }

  /** Each of the twelve other headers reads its own column, whatever its value. */
  lemma PlainLookup(row: Row, k: nat)
    requires k < |Headers| && k !in {2, 3, 4}
    ensures Lookup(row, Headers[k]) == Get(row, Headers[k])
  {
    PlainKeys();
  }

  /** A `session_` header reads its `user_` column when that is truthy, and its own column otherwise. */
  lemma SessionLookup(row: Row)
    ensures Lookup(row, "session_timestamp") == Or(Get(row, "user_timestamp"), Get(row, "session_timestamp"))
    ensures Lookup(row, "session_lng") == Or(Get(row, "user_lng"), Get(row, "session_lng"))
    ensures Lookup(row, "session_lat") == Or(Get(row, "user_lat"), Get(row, "session_lat"))
  {
    SessionKeys();
  }

  /** The column each header is first looked up under, in header order. */
  const ColumnKeys: seq<string> := [
    "submission_id", "user_id", "user_timestamp", "user_lng", "user_lat",
    "cluster_id", "cluster_type", "voxel_count", "ground_area_m2",
    "centroid_lng", "centroid_lat", "centroid_height", "tags", "comment", "created_at"]

  /** The value of field `k`: its first column when that is truthy, otherwise its header's own column. */
  function Column(row: Row, k: nat): Value
    requires k < |Headers|
  {
    Or(Get(row, ColumnKeys[k]), Get(row, Headers[k]))
  }

  /** `ColumnKeys` lists what the header replacement gives for every header. */
  lemma LookupColumn(row: Row, k: nat)
    requires k < |Headers|
    ensures ColumnKey(Headers[k]) == ColumnKeys[k]
    ensures Lookup(row, Headers[k]) == Column(row, k)
  {
    if k in {2, 3, 4} {
      SessionKeys();
    } else {
      PlainKeys();
    }
  }

  // ------------------------------------------------------------ the fields

  /** The text a field stands for: empty for null or undefined, otherwise `String(val)`. */
  function FieldText(v: Value, show: Value -> string): (t: string)
    ensures v == Null || v == Undefined ==> t == ""
    ensures v.Str? ==> t == v.s
  {
    if v == Null || v == Undefined then "" else Text(v, show)
  }

  /** One field as written (server.js:558-564): blank for null or undefined, otherwise the value's text, quoted when it must be. */
  function Cell(v: Value, show: Value -> string): (r: string)
    ensures v == Null || v == Undefined ==> r == ""
    ensures v != Null && v != Undefined ==> r == Escape(Text(v, show))
  {
    Escape(FieldText(v, show))
  }

  /** `headers.map(h => ...)` for one row (server.js:556-565). */
  function Values(row: Row, show: Value -> string): (r: seq<string>)
    ensures |r| == |Headers|
    ensures forall k :: 0 <= k < |Headers| ==> r[k] == Cell(Lookup(row, Headers[k]), show)
  {
    seq(|Headers|, k requires 0 <= k < |Headers| => Cell(Lookup(row, Headers[k]), show))
  }

  /** The fifteen field texts of a row, before escaping. */
  function Texts(row: Row, show: Value -> string): (r: seq<string>)
    ensures |r| == |Headers|
    ensures forall k :: 0 <= k < |Headers| ==> r[k] == FieldText(Lookup(row, Headers[k]), show)
  {
    seq(|Headers|, k requires 0 <= k < |Headers| => FieldText(Lookup(row, Headers[k]), show))
  }

  /** Field `k` of a row's texts is the text of the column that field reads. */
  lemma TextsColumns(row: Row, show: Value -> string)
    ensures forall k :: 0 <= k < |Headers| ==> Texts(row, show)[k] == FieldText(Column(row, k), show)
  {
    forall k | 0 <= k < |Headers|
      ensures Texts(row, show)[k] == FieldText(Column(row, k), show)
    {
      LookupColumn(row, k);
    }
  }

  /** The written fields of a row are its texts, each escaped. */
  lemma ValuesEscaped(row: Row, show: Value -> string)
    ensures Values(row, show) == EscapeAll(Texts(row, show))
  {
  }

  /** No header needs quoting, so the unescaped header line is also the escaped one. */
  lemma HeaderLineEscaped()
    ensures EscapeAll(Headers) == Headers
  {
    assert forall k :: 0 <= k < |Headers| ==> !NeedsQuoting(Headers[k]);
  }

  // ------------------------------------------------------------- the query

  /** An element `array_to_string` writes: neither NULL nor undefined. */
  predicate Present(v: Value) {
    v != Null && v != Undefined
  }

  /** The texts of an array's non-null elements, in order. */
  function ElementTexts(items: seq<Value>, show: Value -> string): (r: seq<string>)
    ensures var kept := Filter(items, Present);
      |r| == |kept| && forall i :: 0 <= i < |r| ==> r[i] == Text(kept[i], show)
  {
    if items == [] then []
    else
      var rest := ElementTexts(items[1..], show);
      if items[0] == Null || items[0] == Undefined then rest else [Text(items[0], show)] + rest
  }

  /** The texts of two arrays' elements, one after the other, are the texts of their concatenation. */
  lemma {:induction false} ElementTextsConcat(a: seq<Value>, b: seq<Value>, show: Value -> string)
    ensures ElementTexts(a + b, show) == ElementTexts(a, show) + ElementTexts(b, show)
  {
    if a != [] {
      assert (a + b)[0] == a[0] && (a + b)[1..] == a[1..] + b;
      ElementTextsConcat(a[1..], b, show);
    } else {
      assert a + b == b;
    }
  }

  /**
   * `array_to_string(tags, '; ')`: the non-null tags joined by `"; "`, and
   * NULL for a NULL column. A `tags` value that is not an array, which the
   * array column does not hold, reads as NULL too.
   */
  function ArrayToString(v: Value, show: Value -> string): (r: Value)
    ensures !v.Arr? ==> r == Null
    ensures v.Arr? ==> r.Str?
    ensures v.Arr? && Filter(v.items, Present) == [] ==> r == Str("")
    ensures v.Arr? && |Filter(v.items, Present)| == 1 ==> r == Str(Text(Filter(v.items, Present)[0], show))
  {
    if v.Arr? then Str(Join(ElementTexts(v.items, show), "; ")) else Null
  }

  /**
   * One more element at the end of the array: a NULL adds nothing, the first
   * non-null element is written alone, and a later one is written after `"; "`.
   */
  lemma ArrayToStringSnoc(items: seq<Value>, x: Value, show: Value -> string)
    ensures var before, after := ArrayToString(Arr(items), show), ArrayToString(Arr(items + [x]), show);
      if !Present(x) then after == before
      else if Filter(items, Present) == [] then after == Str(Text(x, show))
      else after == Str(before.s + "; " + Text(x, show))
  {
    ElementTextsConcat(items, [x], show);
    JoinSnoc(ElementTexts(items, show), ElementTexts([x], show), "; ");
  }

  /** The columns of the CSV query for one cluster and its submission (server.js:526-544). */
  function RowOf(j: ClusterJoin, show: Value -> string): (row: Row)
  {
    var c, s := j.cluster, j.submission;
    map[
      "submission_id" := Str(s.submissionId),
      "user_id" := s.userId,
      "session_timestamp" := s.sessionTimestamp,
      "user_lng" := s.userLng,
      "user_lat" := s.userLat,
      "cluster_id" := c.clusterId,
      "cluster_type" := c.clusterType,
      "voxel_count" := Num(c.voxelCount as real),
      "ground_area_m2" := c.groundAreaM2,
      "centroid_lng" := c.centroidLng,
      "centroid_lat" := c.centroidLat,
      "centroid_height" := c.centroidHeight,
      "tags" := ArrayToString(c.tags, show),
      "comment" := c.comment,
      "created_at" := Stamp(c.createdAt)]
  }

  /** The rows of the CSV query, in the query's order (server.js:526-546). */
  function CsvRows(db: Db, show: Value -> string): (r: seq<Row>)
    ensures |r| == |ExportedClusters(db)|
    ensures forall i :: 0 <= i < |r| ==> r[i] == RowOf(ExportedClusters(db)[i], show)
  {
    var joins := ExportedClusters(db);
    seq(|joins|, i requires 0 <= i < |joins| => RowOf(joins[i], show))
  }

  /** The submission's id and its user. */
  lemma IdentityColumns(j: ClusterJoin, show: Value -> string)
    ensures var row, s := RowOf(j, show), j.submission;
      && Column(row, 0) == Str(s.submissionId)
      && Column(row, 1) == s.userId
  {
  }

  /**
   * The three `session_` fields. `session_timestamp` falls back to its own
   * column, since the query has no `user_timestamp`; `session_lng` and
   * `session_lat` read `user_lng` and `user_lat` when those are truthy and
   * are undefined otherwise, since the query has no `session_lng` or
   * `session_lat` column.
   */
  lemma SessionColumns(j: ClusterJoin, show: Value -> string)
    ensures var row, s := RowOf(j, show), j.submission;
      && Column(row, 2) == s.sessionTimestamp
      && Column(row, 3) == (if Truthy(s.userLng) then s.userLng else Undefined)
      && Column(row, 4) == (if Truthy(s.userLat) then s.userLat else Undefined)
  {
  }

  /** The cluster's id, type, voxel count and ground area. */
  lemma ClusterColumns(j: ClusterJoin, show: Value -> string)
    ensures var row, c := RowOf(j, show), j.cluster;
      && Column(row, 5) == c.clusterId
      && Column(row, 6) == c.clusterType
      && Column(row, 7) == Num(c.voxelCount as real)
      && Column(row, 8) == c.groundAreaM2
  {
  }

  /** The cluster's centroid. */
  lemma CentroidColumns(j: ClusterJoin, show: Value -> string)
    ensures var row, c := RowOf(j, show), j.cluster;
      && Column(row, 9) == c.centroidLng
      && Column(row, 10) == c.centroidLat
      && Column(row, 11) == c.centroidHeight
  {
  }

  /** The joined tags, the comment and the creation time. */
  lemma DetailColumns(j: ClusterJoin, show: Value -> string)
    ensures var row, c := RowOf(j, show), j.cluster;
      && Column(row, 12) == ArrayToString(c.tags, show)
      && Column(row, 13) == c.comment
      && Column(row, 14) == Stamp(c.createdAt)
  {
  }

  // ---------------------------------------------------------- the document

  /** The lines of the first `n` rows. */
  function CsvLines(rows: seq<Row>, n: nat, show: Value -> string): string
    requires n <= |rows|
  {
    if n == 0 then "" else CsvLines(rows, n - 1, show) + Line(Values(rows[n - 1], show))
  }

  /** The response body: the header line, then one line per row. */
  function CsvDocument(rows: seq<Row>, show: Value -> string): string {
    Line(Headers) + CsvLines(rows, |rows|, show)
  }

  /** The field texts of the first `n` rows, one record per row. */
  function TextTable(rows: seq<Row>, n: nat, show: Value -> string): (r: seq<seq<string>>)
    requires n <= |rows|
    ensures |r| == n
    ensures forall i :: 0 <= i < n ==> r[i] == Texts(rows[i], show)
  {
    seq(n, i requires 0 <= i < n => Texts(rows[i], show))
  }

  /** The `forEach` loop (server.js:555-567): one line per row appended to `csv0`. */
  method AppendLines(csv0: string, rows: seq<Row>, show: Value -> string) returns (csv: string)
    ensures csv == csv0 + CsvLines(rows, |rows|, show)
  {
    csv := csv0;
    var i := 0;
    while i < |rows|
      invariant i <= |rows|
      invariant csv == csv0 + CsvLines(rows, i, show)
    {
      AppendAssoc(csv0, CsvLines(rows, i, show), Line(Values(rows[i], show)));
      var values := Values(rows[i], show);
      csv := csv + (Join(values, ",") + "\n");
      i := i + 1;
    }
  }

  /** The handler (server.js:524-571): the query, the header line, then one line per row. */
  method ExportCsv(db: Db, show: Value -> string) returns (csv: string)
    ensures csv == CsvDocument(CsvRows(db, show), show)
  {
    var rows := CsvRows(db, show);
    csv := Join(Headers, ",") + "\n";
    csv := AppendLines(csv, rows, show);
  }

  // ------------------------------------------------------------ read back

  /** A row's line in front of a readable text is read back as the row's field texts. */
  lemma RowReadBack(row: Row, show: Value -> string, rest: string, records: seq<seq<string>>)
    requires ReadDocument(rest) == Some(records)
    ensures ReadDocument(Line(Values(row, show)) + rest) == Some([Texts(row, show)] + records)
  {
    ValuesEscaped(row, show);
    DocumentRoundTrip(Texts(row, show), rest, records);
  }

  lemma TextTableSnoc(rows: seq<Row>, n: nat, show: Value -> string)
    requires 0 < n <= |rows|
    ensures TextTable(rows, n, show) == TextTable(rows, n - 1, show) + [Texts(rows[n - 1], show)]
  {
  }

  lemma {:induction false} LinesReadBack(rows: seq<Row>, n: nat, show: Value -> string,
                                         rest: string, records: seq<seq<string>>)
    requires n <= |rows|
    requires ReadDocument(rest) == Some(records)
    ensures ReadDocument(CsvLines(rows, n, show) + rest) == Some(TextTable(rows, n, show) + records)
    decreases n
  {
    if n == 0 {
      assert CsvLines(rows, n, show) + rest == rest;
      assert TextTable(rows, n, show) + records == records;
    } else {
      var line, texts := Line(Values(rows[n - 1], show)), Texts(rows[n - 1], show);
      RowReadBack(rows[n - 1], show, rest, records);
      LinesReadBack(rows, n - 1, show, line + rest, [texts] + records);
      AppendAssoc(CsvLines(rows, n - 1, show), line, rest);
      TextTableSnoc(rows, n, show);
      AppendAssoc(TextTable(rows, n - 1, show), [texts], records);
    }
  }

  /**
   * Reading the exported text back gives the header names, then for each
   * row, in order, exactly its fifteen field texts: the quoting loses and
   * alters nothing, whatever the values hold.
   */
  lemma CsvReadBack(rows: seq<Row>, show: Value -> string)
    ensures ReadDocument(CsvDocument(rows, show)) == Some([Headers] + TextTable(rows, |rows|, show))
  {
    LinesReadBack(rows, |rows|, show, "", []);
    assert CsvLines(rows, |rows|, show) + "" == CsvLines(rows, |rows|, show);
    assert TextTable(rows, |rows|, show) + [] == TextTable(rows, |rows|, show);
    HeaderLineEscaped();
    DocumentRoundTrip(Headers, CsvLines(rows, |rows|, show), TextTable(rows, |rows|, show));
  }

  /**
   * The records that reading back the export of a database gives after the
   * header names (`CsvReadBack`): one per exported cluster, in the query's
   * order, whose field `k` is the text of the column that header `k` reads
   * from that cluster's row.
   */
  lemma ExportedRecords(db: Db, show: Value -> string)
    ensures var joins, rows := ExportedClusters(db), CsvRows(db, show);
      var records := TextTable(rows, |rows|, show);
      && |records| == |joins|
      && forall i, k :: 0 <= i < |joins| && 0 <= k < |Headers| ==>
           |records[i]| == |Headers| && records[i][k] == FieldText(Column(RowOf(joins[i], show), k), show)
  {
    var rows := CsvRows(db, show);
    forall i | 0 <= i < |rows|
      ensures forall k :: 0 <= k < |Headers| ==> Texts(rows[i], show)[k] == FieldText(Column(rows[i], k), show)
    {
      TextsColumns(rows[i], show);
    }
  }
}
