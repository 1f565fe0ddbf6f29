/**
 * The joins of the two export endpoints: each cluster with its submission,
 * each voxel with its cluster and that cluster's submission, and each ground
 * polygon with its submission, ordered by the submission's `created_at`
 * newest first and then by the child's SERIAL id.
 *
 * An inner join yields one row per matching pair, so a child whose parent
 * is missing is dropped and a child whose parent id matches several rows is
 * repeated. On a consistent database with unique submission ids each child
 * yields exactly one row.
 */
module Joins {

  import opened Schema
  import opened Sorting
  import opened Selection

  datatype ClusterJoin = ClusterJoin(cluster: ClusterRow, submission: SubmissionRow)
  datatype VoxelJoin = VoxelJoin(voxel: VoxelRow, cluster: ClusterRow, submission: SubmissionRow)
  datatype PolygonJoin = PolygonJoin(polygon: PolygonRow, submission: SubmissionRow)

  /** Cluster `c` paired with each of the submissions `ms`. */
  function PairCluster(c: ClusterRow, ms: seq<SubmissionRow>): (r: seq<ClusterJoin>)
    ensures |r| == |ms|
    ensures forall i :: 0 <= i < |ms| ==> r[i] == ClusterJoin(c, ms[i])
  {
    seq(|ms|, i requires 0 <= i < |ms| => ClusterJoin(c, ms[i]))
  }

  /** `clusters c JOIN submissions s ON c.submission_id = s.submission_id`, in table order. */
  function ClusterJoins(cs: seq<ClusterRow>, subs: seq<SubmissionRow>): seq<ClusterJoin> {
    if cs == [] then []
    else PairCluster(cs[0], Filter(subs, HasId(cs[0].submissionId))) + ClusterJoins(cs[1..], subs)
  }

  /** Each joined voxel-cluster pair extended with the cluster's submission. */
  function PairVoxel(v: VoxelRow, js: seq<ClusterJoin>): (r: seq<VoxelJoin>)
    ensures |r| == |js|
    ensures forall i :: 0 <= i < |js| ==> r[i] == VoxelJoin(v, js[i].cluster, js[i].submission)
  {
    seq(|js|, i requires 0 <= i < |js| => VoxelJoin(v, js[i].cluster, js[i].submission))
  }

  /** `voxels v JOIN clusters c ON v.cluster_id = c.id JOIN submissions s ON ...`, in table order. */
  function VoxelJoins(vs: seq<VoxelRow>, cs: seq<ClusterRow>, subs: seq<SubmissionRow>): seq<VoxelJoin> {
    if vs == [] then []
    else PairVoxel(vs[0], ClusterJoins(Filter(cs, HasDbId(vs[0].clusterDbId)), subs)) + VoxelJoins(vs[1..], cs, subs)
  }

  function PairPolygon(gp: PolygonRow, ms: seq<SubmissionRow>): (r: seq<PolygonJoin>)
    ensures |r| == |ms|
    ensures forall i :: 0 <= i < |ms| ==> r[i] == PolygonJoin(gp, ms[i])
  {
    seq(|ms|, i requires 0 <= i < |ms| => PolygonJoin(gp, ms[i]))
  }

  /** `ground_polygons gp JOIN submissions s ON gp.submission_id = s.submission_id`, in table order. */
  function PolygonJoins(ps: seq<PolygonRow>, subs: seq<SubmissionRow>): seq<PolygonJoin> {
    if ps == [] then []
    else PairPolygon(ps[0], Filter(subs, HasId(ps[0].submissionId))) + PolygonJoins(ps[1..], subs)
  }

  // ---- what a join row is ----

  lemma {:induction false} ClusterJoinsMembers(cs: seq<ClusterRow>, subs: seq<SubmissionRow>, j: ClusterJoin)
    ensures j in ClusterJoins(cs, subs) <==>
      j.cluster in cs && j.submission in subs && j.cluster.submissionId == j.submission.submissionId
  {
    if cs != [] {
      ClusterJoinsMembers(cs[1..], subs, j);
      var ms := Filter(subs, HasId(cs[0].submissionId));
      assert j in PairCluster(cs[0], ms) <==> j.cluster == cs[0] && j.submission in ms by {
        if j in PairCluster(cs[0], ms) {
          var i :| 0 <= i < |ms| && PairCluster(cs[0], ms)[i] == j;
          assert ms[i] in ms;
        }
        if j.cluster == cs[0] && j.submission in ms {
          var i :| 0 <= i < |ms| && ms[i] == j.submission;
          assert PairCluster(cs[0], ms)[i] == j;
        }
      }
      assert forall x :: x in cs <==> x == cs[0] || x in cs[1..] by {
        assert cs == [cs[0]] + cs[1..];
      }
    }
  }

  lemma {:induction false} PolygonJoinsMembers(ps: seq<PolygonRow>, subs: seq<SubmissionRow>, j: PolygonJoin)
    ensures j in PolygonJoins(ps, subs) <==>
      j.polygon in ps && j.submission in subs && j.polygon.submissionId == j.submission.submissionId
  {
    if ps != [] {
      PolygonJoinsMembers(ps[1..], subs, j);
      var ms := Filter(subs, HasId(ps[0].submissionId));
      assert j in PairPolygon(ps[0], ms) <==> j.polygon == ps[0] && j.submission in ms by {
        if j in PairPolygon(ps[0], ms) {
          var i :| 0 <= i < |ms| && PairPolygon(ps[0], ms)[i] == j;
          assert ms[i] in ms;
        }
        if j.polygon == ps[0] && j.submission in ms {
          var i :| 0 <= i < |ms| && ms[i] == j.submission;
          assert PairPolygon(ps[0], ms)[i] == j;
        }
      }
      assert forall x :: x in ps <==> x == ps[0] || x in ps[1..] by {
        assert ps == [ps[0]] + ps[1..];
      }
    }
  }

  lemma {:induction false} VoxelJoinsMembers(vs: seq<VoxelRow>, cs: seq<ClusterRow>, subs: seq<SubmissionRow>, j: VoxelJoin)
    ensures j in VoxelJoins(vs, cs, subs) <==>
      && j.voxel in vs && j.cluster in cs && j.submission in subs
      && j.voxel.clusterDbId == j.cluster.dbId && j.cluster.submissionId == j.submission.submissionId
  {
    if vs != [] {
      VoxelJoinsMembers(vs[1..], cs, subs, j);
      var v := vs[0];
      var matching := Filter(cs, HasDbId(v.clusterDbId));
      var js := ClusterJoins(matching, subs);
      ClusterJoinsMembers(matching, subs, ClusterJoin(j.cluster, j.submission));
      assert j in PairVoxel(v, js) <==> j.voxel == v && ClusterJoin(j.cluster, j.submission) in js by {
        if j in PairVoxel(v, js) {
          var i :| 0 <= i < |js| && PairVoxel(v, js)[i] == j;
          assert js[i] == ClusterJoin(j.cluster, j.submission);
        }
        if j.voxel == v && ClusterJoin(j.cluster, j.submission) in js {
          var i :| 0 <= i < |js| && js[i] == ClusterJoin(j.cluster, j.submission);
          assert PairVoxel(v, js)[i] == j;
        }
      }
      assert forall x :: x in vs <==> x == vs[0] || x in vs[1..] by {
        assert vs == [vs[0]] + vs[1..];
      }
    }
  }

  // ---- one row per child on a consistent database ----

  /** An id present in a table of unique ids matches exactly one row. */
  lemma OneSubmissionWithId(subs: seq<SubmissionRow>, id: string)
    requires UniqueSubmissionIds(subs) && id in SubmissionIds(subs)
    ensures |Filter(subs, HasId(id))| == 1
  {
    var k :| 0 <= k < |subs| && subs[k].submissionId == id;
    FilterSingle(subs, HasId(id), k);
  }

  /** A cluster id present in a table of increasing ids matches exactly one row. */
  lemma OneClusterWithDbId(cs: seq<ClusterRow>, id: nat)
    requires forall i, j :: 0 <= i < j < |cs| ==> cs[i].dbId < cs[j].dbId
    requires id in ClusterDbIds(cs)
    ensures exists k :: 0 <= k < |cs| && Filter(cs, HasDbId(id)) == [cs[k]]
  {
    var k :| 0 <= k < |cs| && cs[k].dbId == id;
    forall i | 0 <= i < |cs| && i != k ensures !HasDbId(id)(cs[i]) {
      if i < k {
        assert cs[i].dbId < cs[k].dbId;
      } else {
        assert cs[k].dbId < cs[i].dbId;
      }
    }
    FilterSingle(cs, HasDbId(id), k);
  }

  lemma {:induction false} ClusterJoinsCount(cs: seq<ClusterRow>, subs: seq<SubmissionRow>)
    requires UniqueSubmissionIds(subs)
    requires forall i :: 0 <= i < |cs| ==> cs[i].submissionId in SubmissionIds(subs)
    ensures |ClusterJoins(cs, subs)| == |cs|
  {
    if cs != [] {
      OneSubmissionWithId(subs, cs[0].submissionId);
      ClusterJoinsCount(cs[1..], subs);
    }
  }

  lemma {:induction false} PolygonJoinsCount(ps: seq<PolygonRow>, subs: seq<SubmissionRow>)
    requires UniqueSubmissionIds(subs)
    requires forall i :: 0 <= i < |ps| ==> ps[i].submissionId in SubmissionIds(subs)
    ensures |PolygonJoins(ps, subs)| == |ps|
  {
    if ps != [] {
      OneSubmissionWithId(subs, ps[0].submissionId);
      PolygonJoinsCount(ps[1..], subs);
    }
  }

  lemma {:induction false} VoxelJoinsCount(vs: seq<VoxelRow>, cs: seq<ClusterRow>, subs: seq<SubmissionRow>)
    requires UniqueSubmissionIds(subs)
    requires forall i, j :: 0 <= i < j < |cs| ==> cs[i].dbId < cs[j].dbId
    requires forall i :: 0 <= i < |cs| ==> cs[i].submissionId in SubmissionIds(subs)
    requires forall i :: 0 <= i < |vs| ==> vs[i].clusterDbId in ClusterDbIds(cs)
    ensures |VoxelJoins(vs, cs, subs)| == |vs|
  {
    if vs != [] {
      OneClusterWithDbId(cs, vs[0].clusterDbId);
      var k :| 0 <= k < |cs| && Filter(cs, HasDbId(vs[0].clusterDbId)) == [cs[k]];
      ClusterJoinsCount([cs[k]], subs);
      VoxelJoinsCount(vs[1..], cs, subs);
    }
  }

  // ---- the export queries ----

  /** `ORDER BY s.created_at DESC, c.id`, and likewise for voxels and polygons. */
  function ClusterOrder(j: ClusterJoin): Key {
    Key(-j.submission.createdAt, j.cluster.dbId)
  }

  function VoxelOrder(j: VoxelJoin): Key {
    Key(-j.submission.createdAt, j.voxel.dbId)
  }

  function PolygonOrder(j: PolygonJoin): Key {
    Key(-j.submission.createdAt, j.polygon.dbId)
  }

  /** The cluster query of both exports (server.js:346-369 and server.js:526-546). */
  function ExportedClusters(db: Db): (r: seq<ClusterJoin>)
    ensures multiset(r) == multiset(ClusterJoins(db.clusters, db.submissions))
    ensures SortedBy(r, ClusterOrder)
  {
    SortBy(ClusterJoins(db.clusters, db.submissions), ClusterOrder)
  }

  /** The voxel query of the GeoJSON export (server.js:372-394). */
  function ExportedVoxels(db: Db): (r: seq<VoxelJoin>)
    ensures multiset(r) == multiset(VoxelJoins(db.voxels, db.clusters, db.submissions))
    ensures SortedBy(r, VoxelOrder)
  {
    SortBy(VoxelJoins(db.voxels, db.clusters, db.submissions), VoxelOrder)
  }

  /** The ground polygon query of the GeoJSON export (server.js:398-413). */
  function ExportedPolygons(db: Db): (r: seq<PolygonJoin>)
    ensures multiset(r) == multiset(PolygonJoins(db.polygons, db.submissions))
    ensures SortedBy(r, PolygonOrder)
  {
    SortBy(PolygonJoins(db.polygons, db.submissions), PolygonOrder)
  }

  /**
   * On a consistent database with unique submission ids, each export query
   * returns one row per row of its table.
   */
  lemma ExportedCounts(db: Db, next: Counters)
    requires Consistent(db, next) && UniqueSubmissionIds(db.submissions)
    ensures |ExportedClusters(db)| == |db.clusters|
    ensures |ExportedVoxels(db)| == |db.voxels|
    ensures |ExportedPolygons(db)| == |db.polygons|
  {
    ClusterJoinsCount(db.clusters, db.submissions);
    VoxelJoinsCount(db.voxels, db.clusters, db.submissions);
    PolygonJoinsCount(db.polygons, db.submissions);
    assert |multiset(ExportedClusters(db))| == |ExportedClusters(db)|;
    assert |multiset(ExportedVoxels(db))| == |ExportedVoxels(db)|;
    assert |multiset(ExportedPolygons(db))| == |ExportedPolygons(db)|;
  }
}
