/**
 * The two read endpoints: `GET /api/submissions`, the newest submissions,
 * and `GET /api/submissions/:id`, one submission with its clusters and its
 * ground polygons. Both are pure functions of the tables.
 *
 * The selected columns of a `submissions` row are all its columns
 * (`user_lng` and `user_lat` are only renamed `lng` and `lat` in the JSON),
 * so a listed submission is the row itself.
 */
module Queries {

  import opened Wrappers
  import opened JsValues
  import opened Schema
  import opened Sorting
  import opened Selection
  import opened Payload
  import opened Derivation
  import opened Sequences

  /** `LIMIT 100` of the listing. */
  const ListLimit: nat := 100

  /** `ORDER BY created_at DESC`. */
  function NewestFirst(s: SubmissionRow): Key {
    Key(-s.createdAt, 0)
  }

  /** The listing's JSON: `count` and `submissions`. */
  datatype Listing = Listing(count: nat, submissions: seq<SubmissionRow>)

  /** Rows sorted newest first have non-increasing `created_at`. */
  lemma NewestFirstDescending(rows: seq<SubmissionRow>)
    requires SortedBy(rows, NewestFirst)
    ensures forall i, j :: 0 <= i < j < |rows| ==> rows[i].createdAt >= rows[j].createdAt
  {
    forall i, j | 0 <= i < j < |rows| ensures rows[i].createdAt >= rows[j].createdAt {
      assert KeyLe(NewestFirst(rows[i]), NewestFirst(rows[j]));
    }
  }

  /** No row LIMIT leaves out of a newest-first order is newer than a row it keeps. */
  lemma LeftOutNotNewer(sorted: seq<SubmissionRow>, n: nat)
    requires SortedBy(sorted, NewestFirst)
    ensures var rows := Take(sorted, n);
      forall s :: s in multiset(sorted) - multiset(rows) ==>
        forall i :: 0 <= i < |rows| ==> s.createdAt <= rows[i].createdAt
  {
    var rows := Take(sorted, n);
    TakeSorted(sorted, n, NewestFirst);
    var rest := sorted[|rows|..];
    forall s | s in multiset(sorted) - multiset(rows)
      ensures forall i :: 0 <= i < |rows| ==> s.createdAt <= rows[i].createdAt
    {
      assert s in rest;
      var j :| 0 <= j < |rest| && rest[j] == s;
      forall i | 0 <= i < |rows| ensures s.createdAt <= rows[i].createdAt {
        assert KeyLe(NewestFirst(rows[i]), NewestFirst(sorted[|rows| + j]));
      }
    }
  }

  /** LIMIT keeps part of the rows. */
  lemma TakeSubMultiset<T>(s: seq<T>, n: nat)
    ensures multiset(Take(s, n)) <= multiset(s)
  {
    assert s == Take(s, n) + s[|Take(s, n)|..];
  }

  /**
   * `GET /api/submissions` (server.js:229-254): at most 100 submissions,
   * newest first; a submission left out is no newer than any listed one.
   */
  function ListSubmissions(db: Db): (r: Listing)
    ensures r.count == |r.submissions|
    ensures r.count == if |db.submissions| < ListLimit then |db.submissions| else ListLimit
    ensures forall i, j :: 0 <= i < j < |r.submissions| ==> r.submissions[i].createdAt >= r.submissions[j].createdAt
    ensures multiset(r.submissions) <= multiset(db.submissions)
    ensures forall s :: s in multiset(db.submissions) - multiset(r.submissions) ==>
              forall i :: 0 <= i < |r.submissions| ==> s.createdAt <= r.submissions[i].createdAt
  {
    var sorted := SortBy(db.submissions, NewestFirst);
    var rows := Take(sorted, ListLimit);
    TakeSorted(sorted, ListLimit, NewestFirst);
    NewestFirstDescending(rows);
    LeftOutNotNewer(sorted, ListLimit);
    TakeSubMultiset(sorted, ListLimit);
    Listing(|rows|, rows)
  }

  /** A cluster of the lookup (server.js:293-305): the selected columns of a `clusters` row. */
  datatype ClusterView = ClusterView(
    clusterId: Value,
    clusterType: Value,
    voxelCount: nat,
    groundAreaM2: Value,
    lng: Value,
    lat: Value,
    height: Value,
    tags: Value,
    comment: Value,
    createdAt: int)

  /** A ground polygon of the lookup, reshaped; `polygonType` is the JSON key `type`. */
  datatype PolygonView = PolygonView(polygonType: Value, geometry: Value, area: Value, center: Value)

  /** The lookup's outcome: 404, or the JSON of the 200 response. */
  datatype Lookup =
    | NotFound
    | Found(submission: SubmissionRow, clusters: seq<ClusterView>, groundPolygons: seq<PolygonView>)

  function ClusterViewOf(c: ClusterRow): ClusterView {
    ClusterView(c.clusterId, c.clusterType, c.voxelCount, c.groundAreaM2,
                c.centroidLng, c.centroidLat, c.centroidHeight, c.tags, c.comment, c.createdAt)
  }

  /** The reshaping of server.js:326-331; `center` is the two-element array `[lng, lat]`. */
  function Reshape(gp: PolygonRow): (v: PolygonView)
    ensures v.polygonType == gp.polygonType && v.geometry == gp.geometryJson && v.area == gp.areaM2
    ensures v.center.Arr? && |v.center.items| == 2
    ensures v.center.items[0] == gp.centerLng && v.center.items[1] == gp.centerLat
  {
    PolygonView(gp.polygonType, gp.geometryJson, gp.areaM2, Arr([gp.centerLng, gp.centerLat]))
  }

  /** `ORDER BY created_at` of the clusters. */
  function OldestFirst(c: ClusterRow): Key {
    Key(c.createdAt, 0)
  }

  function ClusterViews(cs: seq<ClusterRow>): (r: seq<ClusterView>)
    ensures |r| == |cs|
    ensures forall i :: 0 <= i < |cs| ==> r[i] == ClusterViewOf(cs[i])
  {
    Map(cs, ClusterViewOf)
  }

  function PolygonViews(ps: seq<PolygonRow>): (r: seq<PolygonView>)
    ensures |r| == |ps|
    ensures forall i :: 0 <= i < |ps| ==> r[i] == Reshape(ps[i])
  {
    Map(ps, Reshape)
  }

  /** The submission query of the lookup (server.js:269-285): its rows are those with the id. */
  function SubmissionMatches(db: Db, id: string): (r: seq<SubmissionRow>)
    ensures r == [] <==> id !in SubmissionIds(db.submissions)
    ensures forall s :: s in r <==> s in db.submissions && s.submissionId == id
  {
    var matches := Filter(db.submissions, HasId(id));
    assert id in SubmissionIds(db.submissions) ==> matches != [] by {
      if id in SubmissionIds(db.submissions) {
        var i :| 0 <= i < |db.submissions| && db.submissions[i].submissionId == id;
        assert db.submissions[i] in matches;
      }
    }
    assert matches != [] ==> id in SubmissionIds(db.submissions) by {
      if matches != [] {
        assert matches[0] in matches;
        var i :| 0 <= i < |db.submissions| && db.submissions[i] == matches[0];
      }
    }
    matches
  }

  /** Clusters sorted oldest first give views with non-decreasing `created_at`. */
  lemma ViewsOldestFirst(sorted: seq<ClusterRow>)
    requires SortedBy(sorted, OldestFirst)
    ensures var r := ClusterViews(sorted); forall i, j :: 0 <= i < j < |r| ==> r[i].createdAt <= r[j].createdAt
  {
    var r := ClusterViews(sorted);
    forall i, j | 0 <= i < j < |r| ensures r[i].createdAt <= r[j].createdAt {
      assert KeyLe(OldestFirst(sorted[i]), OldestFirst(sorted[j]));
    }
  }

  /** The views of a reordering of a submission's clusters are the views of exactly its clusters. */
  lemma ViewsOfSubmission(clusters: seq<ClusterRow>, id: string, sorted: seq<ClusterRow>)
    requires multiset(sorted) == multiset(Filter(clusters, ClusterOf(id)))
    ensures var r := ClusterViews(sorted);
      && multiset(r) == multiset(ClusterViews(Filter(clusters, ClusterOf(id))))
      && (forall c :: c in clusters && c.submissionId == id ==> ClusterViewOf(c) in r)
      && (forall v :: v in r ==> exists c :: c in clusters && c.submissionId == id && v == ClusterViewOf(c))
  {
    var selected := Filter(clusters, ClusterOf(id));
    var r := ClusterViews(sorted);
    MapPermutation(sorted, selected, ClusterViewOf);
    forall c | c in clusters && c.submissionId == id ensures ClusterViewOf(c) in r {
      assert c in multiset(sorted);
      var i :| 0 <= i < |sorted| && sorted[i] == c;
      assert r[i] == ClusterViewOf(c);
    }
    forall v | v in r ensures exists c :: c in clusters && c.submissionId == id && v == ClusterViewOf(c) {
      var i :| 0 <= i < |r| && r[i] == v;
      var c := sorted[i];
      assert c in multiset(selected);
      assert c in selected && ClusterOf(id)(c);
      assert v == ClusterViewOf(c);
    }
  }

  /** The clusters query of the lookup (server.js:293-307): the submission's clusters, oldest first. */
  function SubmissionClusters(db: Db, id: string): (r: seq<ClusterView>)
    ensures multiset(r) == multiset(ClusterViews(Filter(db.clusters, ClusterOf(id))))
    ensures |r| == |Filter(db.clusters, ClusterOf(id))|
    ensures forall i, j :: 0 <= i < j < |r| ==> r[i].createdAt <= r[j].createdAt
    ensures forall c :: c in db.clusters && c.submissionId == id ==> ClusterViewOf(c) in r
    ensures forall v :: v in r ==> exists c :: c in db.clusters && c.submissionId == id && v == ClusterViewOf(c)
  {
    var sorted := SortBy(Filter(db.clusters, ClusterOf(id)), OldestFirst);
    assert |sorted| == |multiset(sorted)| == |Filter(db.clusters, ClusterOf(id))|;
    ViewsOldestFirst(sorted);
    ViewsOfSubmission(db.clusters, id, sorted);
    ClusterViews(sorted)
  }

  /** The ground polygons query of the lookup (server.js:310-319), reshaped. */
  function SubmissionPolygons(db: Db, id: string): (r: seq<PolygonView>)
    ensures multiset(r) == multiset(PolygonViews(Filter(db.polygons, PolygonOf(id))))
    ensures |r| == |Filter(db.polygons, PolygonOf(id))|
    ensures forall gp :: gp in db.polygons && gp.submissionId == id ==> Reshape(gp) in r
    ensures forall v :: v in r ==> exists gp :: gp in db.polygons && gp.submissionId == id && v == Reshape(gp)
  {
    var selected := Filter(db.polygons, PolygonOf(id));
    var r := PolygonViews(selected);
    forall gp | gp in db.polygons && gp.submissionId == id ensures Reshape(gp) in r {
      var i :| 0 <= i < |selected| && selected[i] == gp;
      assert r[i] == Reshape(gp);
    }
    forall v | v in r ensures exists gp :: gp in db.polygons && gp.submissionId == id && v == Reshape(gp) {
      var i :| 0 <= i < |r| && r[i] == v;
      var gp := selected[i];
      assert gp in selected && PolygonOf(id)(gp);
      assert v == Reshape(gp);
    }
    r
  }

  /**
   * `GET /api/submissions/:id` (server.js:265-333): not found exactly when
   * no submission has the id, and then nothing else is read; otherwise the
   * first matching submission, its clusters oldest first and its ground
   * polygons reshaped.
   */
  function GetSubmission(db: Db, id: string): (r: Lookup)
    ensures r.NotFound? <==> id !in SubmissionIds(db.submissions)
    ensures r.Found? ==> r.submission in db.submissions && r.submission.submissionId == id
    ensures r.Found? ==> multiset(r.clusters) == multiset(ClusterViews(Filter(db.clusters, ClusterOf(id))))
    ensures r.Found? ==> multiset(r.groundPolygons) == multiset(PolygonViews(Filter(db.polygons, PolygonOf(id))))
    ensures r.Found? ==> forall i, j :: 0 <= i < j < |r.clusters| ==> r.clusters[i].createdAt <= r.clusters[j].createdAt
    ensures r.Found? ==> forall c :: c in db.clusters && c.submissionId == id ==> ClusterViewOf(c) in r.clusters
    ensures r.Found? ==> forall v :: v in r.clusters ==>
              exists c :: c in db.clusters && c.submissionId == id && v == ClusterViewOf(c)
    ensures r.Found? ==> forall gp :: gp in db.polygons && gp.submissionId == id ==> Reshape(gp) in r.groundPolygons
    ensures r.Found? ==> forall v :: v in r.groundPolygons ==>
              exists gp :: gp in db.polygons && gp.submissionId == id && v == Reshape(gp)
  {
    var matches := SubmissionMatches(db, id);
    if matches == [] then NotFound
    else
      assert matches[0] in matches;
      Found(matches[0], SubmissionClusters(db, id), SubmissionPolygons(db, id))
  }

  // ---- a committed submission reads back ----

  /** Every cluster row of a transaction carries its submission id and its `created_at`. */
  lemma DerivedClusters(cs: seq<ClusterIn>, sid: string, first: nat, now: int, rows: seq<ClusterRow>)
    requires ClustersShapedBefore(cs, |cs|) && rows == ClusterRows(cs, |cs|, sid, first, now)
    ensures forall k :: 0 <= k < |rows| ==> ClusterOf(sid)(rows[k]) && OldestFirst(rows[k]) == Key(now, 0)
  {
    forall k | 0 <= k < |rows| ensures ClusterOf(sid)(rows[k]) && OldestFirst(rows[k]) == Key(now, 0) {
      ClusterRowsAt(cs, |cs|, sid, first, now, k);
    }
  }

  /** Every polygon row of a transaction carries its submission id. */
  lemma DerivedPolygons(ps: seq<PolygonIn>, sid: string, first: nat, now: int, rows: seq<PolygonRow>)
    requires PolygonsShapedBefore(ps, |ps|) && rows == PolygonRows(ps, |ps|, sid, first, now)
    ensures forall k :: 0 <= k < |rows| ==> PolygonOf(sid)(rows[k])
  {
    forall k | 0 <= k < |rows| ensures PolygonOf(sid)(rows[k]) {
      PolygonRowsAt(ps, |ps|, sid, first, now, k);
    }
  }

  /** No row of a consistent database names a submission id that is not in its `submissions` table. */
  lemma AbsentIdSelectsNothing(db: Db, next: Counters, sid: string)
    requires Consistent(db, next) && sid !in SubmissionIds(db.submissions)
    ensures Filter(db.submissions, HasId(sid)) == []
    ensures Filter(db.clusters, ClusterOf(sid)) == []
    ensures Filter(db.polygons, PolygonOf(sid)) == []
  {
    forall i | 0 <= i < |db.submissions| ensures !HasId(sid)(db.submissions[i]) {
      assert db.submissions[i].submissionId in SubmissionIds(db.submissions);
    }
    FilterNone(db.submissions, HasId(sid));
    FilterNone(db.clusters, ClusterOf(sid));
    FilterNone(db.polygons, PolygonOf(sid));
  }

  /** After the commit, the clusters query returns the transaction's clusters in insertion order. */
  lemma ClustersReadBack(db: Db, next: Counters, p: Submission, sid: string, now: int)
    requires Consistent(db, next) && Shaped(p) && sid !in SubmissionIds(db.submissions)
    ensures var d := Derived(p, sid, now, next);
      SubmissionClusters(Append(db, d), sid) == ClusterViews(d.clusters)
  {
    var cs := Elements(p.clusters);
    var rows := ClusterRows(cs, |cs|, sid, next.cluster, now);
    assert Derived(p, sid, now, next).clusters == rows;
    AbsentIdSelectsNothing(db, next, sid);
    DerivedClusters(cs, sid, next.cluster, now, rows);
    FilterFresh(db.clusters, rows, ClusterOf(sid));
    SortByTied(rows, OldestFirst, Key(now, 0));
  }

  /** After the commit, the polygons query returns the transaction's polygons in insertion order. */
  lemma PolygonsReadBack(db: Db, next: Counters, p: Submission, sid: string, now: int)
    requires Consistent(db, next) && Shaped(p) && sid !in SubmissionIds(db.submissions)
    ensures var d := Derived(p, sid, now, next);
      SubmissionPolygons(Append(db, d), sid) == PolygonViews(d.polygons)
  {
    var ps := Elements(p.groundPolygons);
    var rows := PolygonRows(ps, |ps|, sid, next.polygon, now);
    assert Derived(p, sid, now, next).polygons == rows;
    AbsentIdSelectsNothing(db, next, sid);
    DerivedPolygons(ps, sid, next.polygon, now, rows);
    FilterFresh(db.polygons, rows, PolygonOf(sid));
  }

  /** After the commit, the submission query returns exactly the new row. */
  lemma SubmissionReadBack(db: Db, next: Counters, p: Submission, sid: string, now: int)
    requires Consistent(db, next) && Shaped(p) && sid !in SubmissionIds(db.submissions)
    ensures SubmissionMatches(Append(db, Derived(p, sid, now, next)), sid) == [SubmissionRowOf(p, sid, now)]
  {
    var row := SubmissionRowOf(p, sid, now);
    assert Derived(p, sid, now, next).submissions == [row];
    AbsentIdSelectsNothing(db, next, sid);
    FilterFresh(db.submissions, [row], HasId(sid));
  }

  /**
   * Reading a submission right after committing it (with an id no earlier
   * submission has) returns its row, its clusters in insertion order and its
   * polygons in insertion order.
   */
  lemma PostThenGet(db: Db, next: Counters, p: Submission, sid: string, now: int)
    requires Consistent(db, next) && Shaped(p) && sid !in SubmissionIds(db.submissions)
    ensures var d := Derived(p, sid, now, next);
      GetSubmission(Append(db, d), sid)
        == Found(SubmissionRowOf(p, sid, now), ClusterViews(d.clusters), PolygonViews(d.polygons))
  {
    SubmissionReadBack(db, next, p, sid, now);
    ClustersReadBack(db, next, p, sid, now);
    PolygonsReadBack(db, next, p, sid, now);
  }
}
