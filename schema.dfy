/**
 * The four tables the service writes and reads: `submissions`,
 * `ground_polygons`, `clusters` and `voxels`, each a sequence of rows in
 * insertion order. `dbId` is a row's SERIAL primary key; `createdAt` is the
 * abstract ordering key of its `created_at` column.
 */
module Schema {

  import opened JsValues

  datatype SubmissionRow = SubmissionRow(
    submissionId: string,
    userId: Value,
    sessionTimestamp: Value,
    userLng: Value,
    userLat: Value,
    radiusMeters: Value,
    totalDislikedVoxels: nat,
    totalLikedVoxels: nat,
    totalClusters: nat,
    sessionMetadata: Value,
    createdAt: int)

  datatype PolygonRow = PolygonRow(
    dbId: nat,
    submissionId: string,
    polygonType: Value,
    geometryJson: Value,
    areaM2: Value,
    centerLng: Value,
    centerLat: Value,
    createdAt: int)

  datatype ClusterRow = ClusterRow(
    dbId: nat,
    submissionId: string,
    clusterId: Value,
    clusterType: Value,
    voxelCount: nat,
    groundAreaM2: Value,
    centroidLng: Value,
    centroidLat: Value,
    centroidHeight: Value,
    tags: Value,
    comment: Value,
    createdAt: int)

  datatype VoxelRow = VoxelRow(
    dbId: nat,
    clusterDbId: nat,
    voxelKey: Value,
    lng: Value,
    lat: Value,
    height: Value,
    heightMeters: Value,
    createdAt: int)

  datatype Db = Db(
    submissions: seq<SubmissionRow>,
    polygons: seq<PolygonRow>,
    clusters: seq<ClusterRow>,
    voxels: seq<VoxelRow>)

  /** The next value of each table's SERIAL id sequence. */
  datatype Counters = Counters(polygon: nat, cluster: nat, voxel: nat)

  /** The rows of `extra` appended, table by table, after those of `db`. */
  function Append(db: Db, extra: Db): (r: Db)
    ensures |r.submissions| == |db.submissions| + |extra.submissions|
    ensures |r.polygons| == |db.polygons| + |extra.polygons|
    ensures |r.clusters| == |db.clusters| + |extra.clusters|
    ensures |r.voxels| == |db.voxels| + |extra.voxels|
    ensures r.submissions[..|db.submissions|] == db.submissions && r.submissions[|db.submissions|..] == extra.submissions
    ensures r.polygons[..|db.polygons|] == db.polygons && r.polygons[|db.polygons|..] == extra.polygons
    ensures r.clusters[..|db.clusters|] == db.clusters && r.clusters[|db.clusters|..] == extra.clusters
    ensures r.voxels[..|db.voxels|] == db.voxels && r.voxels[|db.voxels|..] == extra.voxels
  {
    Db(db.submissions + extra.submissions, db.polygons + extra.polygons,
       db.clusters + extra.clusters, db.voxels + extra.voxels)
  }

  function SubmissionIds(subs: seq<SubmissionRow>): set<string> {
    set i | 0 <= i < |subs| :: subs[i].submissionId
  }

  function ClusterDbIds(cs: seq<ClusterRow>): set<nat> {
    set i | 0 <= i < |cs| :: cs[i].dbId
  }

  /** No two submissions share a `submission_id`. */
  ghost predicate UniqueSubmissionIds(subs: seq<SubmissionRow>) {
    forall i, j :: 0 <= i < j < |subs| ==> subs[i].submissionId != subs[j].submissionId
  }

  /**
   * The `ground_polygons` table: every row names an existing submission, and
   * the SERIAL ids are increasing in insertion order and below the sequence's
   * next value.
   */
  ghost predicate PolygonsConsistent(polygons: seq<PolygonRow>, submissions: seq<SubmissionRow>, next: nat) {
    && (forall i :: 0 <= i < |polygons| ==> polygons[i].submissionId in SubmissionIds(submissions))
    && (forall i :: 0 <= i < |polygons| ==> polygons[i].dbId < next)
    && (forall i, j :: 0 <= i < j < |polygons| ==> polygons[i].dbId < polygons[j].dbId)
  }

  /** The `clusters` table, in the same sense. */
  ghost predicate ClustersConsistent(clusters: seq<ClusterRow>, submissions: seq<SubmissionRow>, next: nat) {
    && (forall i :: 0 <= i < |clusters| ==> clusters[i].submissionId in SubmissionIds(submissions))
    && (forall i :: 0 <= i < |clusters| ==> clusters[i].dbId < next)
    && (forall i, j :: 0 <= i < j < |clusters| ==> clusters[i].dbId < clusters[j].dbId)
  }

  /** The `voxels` table: every row names an existing cluster row. */
  ghost predicate VoxelsConsistent(voxels: seq<VoxelRow>, clusters: seq<ClusterRow>, next: nat) {
    && (forall i :: 0 <= i < |voxels| ==> voxels[i].clusterDbId in ClusterDbIds(clusters))
    && (forall i :: 0 <= i < |voxels| ==> voxels[i].dbId < next)
    && (forall i, j :: 0 <= i < j < |voxels| ==> voxels[i].dbId < voxels[j].dbId)
  }

  /** The consistency every committed state of the store keeps: no orphans, ordered SERIAL ids. */
  ghost predicate Consistent(db: Db, next: Counters) {
    && PolygonsConsistent(db.polygons, db.submissions, next.polygon)
    && ClustersConsistent(db.clusters, db.submissions, next.cluster)
    && VoxelsConsistent(db.voxels, db.clusters, next.voxel)
  }

  // ---- appending rows keeps the store consistent ----

  lemma SubmissionIdsConcat(a: seq<SubmissionRow>, b: seq<SubmissionRow>)
    ensures SubmissionIds(a + b) == SubmissionIds(a) + SubmissionIds(b)
  {
    var all := a + b;
    forall id | id in SubmissionIds(a) ensures id in SubmissionIds(all) {
      var i :| 0 <= i < |a| && a[i].submissionId == id;
      assert all[i] == a[i];
    }
    forall id | id in SubmissionIds(b) ensures id in SubmissionIds(all) {
      var i :| 0 <= i < |b| && b[i].submissionId == id;
      assert all[|a| + i] == b[i];
    }
    forall id | id in SubmissionIds(all) ensures id in SubmissionIds(a) + SubmissionIds(b) {
      var i :| 0 <= i < |all| && all[i].submissionId == id;
      if i < |a| {
        assert all[i] == a[i];
      } else {
        assert all[i] == b[i - |a|];
      }
    }
  }

  lemma ClusterDbIdsConcat(a: seq<ClusterRow>, b: seq<ClusterRow>)
    ensures ClusterDbIds(a + b) == ClusterDbIds(a) + ClusterDbIds(b)
  {
    var all := a + b;
    forall id | id in ClusterDbIds(a) ensures id in ClusterDbIds(all) {
      var i :| 0 <= i < |a| && a[i].dbId == id;
      assert all[i] == a[i];
    }
    forall id | id in ClusterDbIds(b) ensures id in ClusterDbIds(all) {
      var i :| 0 <= i < |b| && b[i].dbId == id;
      assert all[|a| + i] == b[i];
    }
    forall id | id in ClusterDbIds(all) ensures id in ClusterDbIds(a) + ClusterDbIds(b) {
      var i :| 0 <= i < |all| && all[i].dbId == id;
      if i < |a| {
        assert all[i] == a[i];
      } else {
        assert all[i] == b[i - |a|];
      }
    }
  }

  /**
   * `extra` is what one transaction adds on top of `db`: its child rows name
   * parents in `db` or in `extra`, and its SERIAL ids are the next values of
   * the sequences, taken in order, which end up at `after`.
   */
  ghost predicate Extends(db: Db, extra: Db, next: Counters, after: Counters) {
    && (forall k :: 0 <= k < |extra.polygons| ==>
          extra.polygons[k].submissionId in SubmissionIds(extra.submissions))
    && (forall k :: 0 <= k < |extra.clusters| ==>
          extra.clusters[k].submissionId in SubmissionIds(extra.submissions))
    && (forall k :: 0 <= k < |extra.voxels| ==>
          extra.voxels[k].clusterDbId in ClusterDbIds(extra.clusters))
    && (forall k :: 0 <= k < |extra.polygons| ==> extra.polygons[k].dbId == next.polygon + k)
    && (forall k :: 0 <= k < |extra.clusters| ==> extra.clusters[k].dbId == next.cluster + k)
    && (forall k :: 0 <= k < |extra.voxels| ==> extra.voxels[k].dbId == next.voxel + k)
    && next.polygon + |extra.polygons| <= after.polygon
    && next.cluster + |extra.clusters| <= after.cluster
    && next.voxel + |extra.voxels| <= after.voxel
  }

  lemma {:induction false} AppendPolygons(db: Db, extra: Db, next: Counters, after: Counters)
    requires Consistent(db, next) && Extends(db, extra, next, after)
    ensures PolygonsConsistent(db.polygons + extra.polygons, db.submissions + extra.submissions, after.polygon)
  {
    var all, subs := db.polygons + extra.polygons, db.submissions + extra.submissions;
    SubmissionIdsConcat(db.submissions, extra.submissions);
    forall i | 0 <= i < |all|
      ensures all[i].submissionId in SubmissionIds(subs) && all[i].dbId < after.polygon
    {
      if i >= |db.polygons| {
        assert all[i] == extra.polygons[i - |db.polygons|];
      }
    }
    forall i, j | 0 <= i < j < |all| ensures all[i].dbId < all[j].dbId {
      if j >= |db.polygons| {
        assert all[j] == extra.polygons[j - |db.polygons|];
        if i >= |db.polygons| {
          assert all[i] == extra.polygons[i - |db.polygons|];
        }
      }
    }
  }

  lemma {:induction false} AppendClusters(db: Db, extra: Db, next: Counters, after: Counters)
    requires Consistent(db, next) && Extends(db, extra, next, after)
    ensures ClustersConsistent(db.clusters + extra.clusters, db.submissions + extra.submissions, after.cluster)
  {
    var all, subs := db.clusters + extra.clusters, db.submissions + extra.submissions;
    SubmissionIdsConcat(db.submissions, extra.submissions);
    forall i | 0 <= i < |all|
      ensures all[i].submissionId in SubmissionIds(subs) && all[i].dbId < after.cluster
    {
      if i >= |db.clusters| {
        assert all[i] == extra.clusters[i - |db.clusters|];
      }
    }
    forall i, j | 0 <= i < j < |all| ensures all[i].dbId < all[j].dbId {
      if j >= |db.clusters| {
        assert all[j] == extra.clusters[j - |db.clusters|];
        if i >= |db.clusters| {
          assert all[i] == extra.clusters[i - |db.clusters|];
        }
      }
    }
  }

  lemma {:induction false} AppendVoxels(db: Db, extra: Db, next: Counters, after: Counters)
    requires Consistent(db, next) && Extends(db, extra, next, after)
    ensures VoxelsConsistent(db.voxels + extra.voxels, db.clusters + extra.clusters, after.voxel)
  {
    var all, parents := db.voxels + extra.voxels, db.clusters + extra.clusters;
    ClusterDbIdsConcat(db.clusters, extra.clusters);
    forall i | 0 <= i < |all|
      ensures all[i].clusterDbId in ClusterDbIds(parents) && all[i].dbId < after.voxel
    {
      if i >= |db.voxels| {
        assert all[i] == extra.voxels[i - |db.voxels|];
      }
    }
    forall i, j | 0 <= i < j < |all| ensures all[i].dbId < all[j].dbId {
      if j >= |db.voxels| {
        assert all[j] == extra.voxels[j - |db.voxels|];
        if i >= |db.voxels| {
          assert all[i] == extra.voxels[i - |db.voxels|];
        }
      }
    }
  }

  /** Committing such rows keeps the store consistent: no orphans, SERIAL ids in order. */
  lemma AppendConsistent(db: Db, extra: Db, next: Counters, after: Counters)
    requires Consistent(db, next) && Extends(db, extra, next, after)
    ensures Consistent(Append(db, extra), after)
  {
    AppendPolygons(db, extra, next, after);
    AppendClusters(db, extra, next, after);
    AppendVoxels(db, extra, next, after);
  }

  /** Sequences only move forward, so a consistent state stays consistent as they advance. */
  lemma ConsistentAsSequencesAdvance(db: Db, a: Counters, b: Counters)
    requires Consistent(db, a)
    requires a.polygon <= b.polygon && a.cluster <= b.cluster && a.voxel <= b.voxel
    ensures Consistent(db, b)
  {
  }
}
