/**
 * The `POST /api/submissions` handler: one database transaction that inserts
 * the submission row, then each ground polygon, then each cluster followed by
 * its voxels, and either commits all of it or rolls all of it back.
 *
 * The database is the `Store`: its four tables and the three SERIAL
 * sequences. BEGIN remembers the tables; ROLLBACK puts them back. The
 * sequences are not put back (PostgreSQL sequences are not transactional),
 * so ids consumed by a rolled-back submission are never reused.
 *
 * What the database itself may refuse (a constraint, a malformed value, a
 * lost connection) is the `refuse` parameter: the number of the first
 * statement of the transaction it refuses, counting BEGIN as 0.
 */
module Ingestion {

  import opened Wrappers
  import opened JsValues
  import opened Schema
  import opened Payload
  import opened Derivation
  import opened Sequences

  const SavedMessage: string := "Submission saved successfully"
  const SaveFailedMessage: string := "Failed to save submission"

  /** The 201 and 500 responses of the handler. */
  datatype Response =
    | Created(submissionId: string, message: string, stats: Stats)
    | Failed(error: string, details: Failure)

  /** The database refuses one of the statements numbered `lo` up to (excluding) `hi`. */
  predicate RefusedIn(refuse: Option<nat>, lo: nat, hi: nat) {
    refuse.Some? && lo <= refuse.value < hi
  }

  /** Two adjacent ranges without a refusal make one range without a refusal. */
  lemma NotRefusedJoin(refuse: Option<nat>, lo: nat, mid: nat, hi: nat)
    requires lo <= mid <= hi && !RefusedIn(refuse, lo, mid) && !RefusedIn(refuse, mid, hi)
    ensures !RefusedIn(refuse, lo, hi)
  {
  }

  /**
   * The transaction commits exactly when no stage fails: BEGIN (statement 0)
   * and the submission INSERT (1) are accepted, every polygon is shaped and
   * its INSERT accepted (from 2), every cluster likewise with its voxels, and
   * COMMIT (the last statement) is accepted.
   */
  lemma CompletesStages(p: Submission, refuse: Option<nat>)
    ensures var ps, cs := Elements(p.groundPolygons), Elements(p.clusters);
      var polygonsEnd := 2 + |ps|;
      var clustersEnd := polygonsEnd + |cs| + VoxelTotal(cs, |cs|);
      Completes(p, refuse) <==>
        && refuse != Some(0) && refuse != Some(1)
        && PolygonsShaped(ps) && !RefusedIn(refuse, 2, polygonsEnd)
        && ClustersShaped(cs) && !RefusedIn(refuse, polygonsEnd, clustersEnd)
        && refuse != Some(StatementCount(p) - 1)
  {
  }

  /** A missing centroid at cluster `j` means the clusters are not all shaped. */
  lemma ClusterNotShaped(cs: seq<ClusterIn>, j: nat)
    requires j < |cs| && cs[j].centroid.None?
    ensures !ClustersShaped(cs)
  {
  }

  /** The statements of cluster `j` lie within the statements of all the clusters. */
  lemma ClusterStatementsWithin(cs: seq<ClusterIn>, j: nat)
    requires j < |cs|
    ensures j + VoxelTotal(cs, j) + 1 + |VoxelsOf(cs[j])| <= |cs| + VoxelTotal(cs, |cs|)
  {
    VoxelTotalStep(cs, j);
    VoxelTotalMonotone(cs, j + 1, |cs|);
  }

  /** A refusal among cluster `j`'s statements is a refusal among the clusters' statements. */
  lemma ClusterRefusalWithin(cs: seq<ClusterIn>, j: nat, refuse: Option<nat>, stmt: nat)
    requires j < |cs|
    requires RefusedIn(refuse, stmt + j + VoxelTotal(cs, j), stmt + j + VoxelTotal(cs, j) + 1 + |VoxelsOf(cs[j])|)
    ensures RefusedIn(refuse, stmt, stmt + |cs| + VoxelTotal(cs, |cs|))
  {
    ClusterStatementsWithin(cs, j);
  }

  /** What the cluster loop has done after `j` clusters, from the tables `clusters0`, `voxels0` and the sequences `start`. */
  ghost predicate ClustersDone(cs: seq<ClusterIn>, j: nat, sid: string, now: int, refuse: Option<nat>, stmt: nat,
                               start: Counters, clusters0: seq<ClusterRow>, voxels0: seq<VoxelRow>,
                               clusters: seq<ClusterRow>, voxels: seq<VoxelRow>, next: Counters)
    requires j <= |cs|
  {
    && next == Counters(start.polygon, start.cluster + j, start.voxel + VoxelTotal(cs, j))
    && ClustersShapedBefore(cs, j)
    && !RefusedIn(refuse, stmt, stmt + j + VoxelTotal(cs, j))
    && clusters == clusters0 + ClusterRows(cs, j, sid, start.cluster, now)
    && voxels == voxels0 + VoxelRows(cs, j, start.cluster, start.voxel, now)
  }

  /** The `clusters` table after cluster `j`'s row. */
  lemma ClusterTableStep(cs: seq<ClusterIn>, j: nat, sid: string, now: int, first: nat,
                         clusters0: seq<ClusterRow>, clusters: seq<ClusterRow>, clusters1: seq<ClusterRow>)
    requires j < |cs| && ClustersShapedBefore(cs, j) && cs[j].centroid.Some?
    requires clusters == clusters0 + ClusterRows(cs, j, sid, first, now)
    requires clusters1 == clusters + [ClusterRowOf(cs[j], sid, first + j, now).value]
    ensures ClustersShapedBefore(cs, j + 1)
    ensures clusters1 == clusters0 + ClusterRows(cs, j + 1, sid, first, now)
  {
    AppendAssoc(clusters0, ClusterRows(cs, j, sid, first, now), [ClusterRowOf(cs[j], sid, first + j, now).value]);
  }

  /** The `voxels` table after cluster `j`'s voxel rows. */
  lemma VoxelTableStep(cs: seq<ClusterIn>, j: nat, now: int, firstCluster: nat, firstVoxel: nat,
                       voxels0: seq<VoxelRow>, voxels: seq<VoxelRow>, voxels1: seq<VoxelRow>)
    requires j < |cs|
    requires voxels == voxels0 + VoxelRows(cs, j, firstCluster, firstVoxel, now)
    requires voxels1 == voxels + ClusterVoxelRows(VoxelsOf(cs[j]), |VoxelsOf(cs[j])|, firstCluster + j, firstVoxel + VoxelTotal(cs, j), now)
    ensures voxels1 == voxels0 + VoxelRows(cs, j + 1, firstCluster, firstVoxel, now)
  {
    AppendAssoc(voxels0, VoxelRows(cs, j, firstCluster, firstVoxel, now),
                ClusterVoxelRows(VoxelsOf(cs[j]), |VoxelsOf(cs[j])|, firstCluster + j, firstVoxel + VoxelTotal(cs, j), now));
  }

  /** The sequences, the TypeError check and the refusals after cluster `j`. */
  lemma ClusterCountersStep(cs: seq<ClusterIn>, j: nat, refuse: Option<nat>, stmt: nat, start: Counters, next: Counters, next1: Counters)
    requires j < |cs| && ClustersShapedBefore(cs, j)
    requires next == Counters(start.polygon, start.cluster + j, start.voxel + VoxelTotal(cs, j))
    requires !RefusedIn(refuse, stmt, stmt + j + VoxelTotal(cs, j))
    requires var at := stmt + j + VoxelTotal(cs, j);
      cs[j].centroid.Some? && !RefusedIn(refuse, at, at + 1 + |VoxelsOf(cs[j])|)
    requires next1 == Counters(next.polygon, next.cluster + 1, next.voxel + |VoxelsOf(cs[j])|)
    ensures next1 == Counters(start.polygon, start.cluster + (j + 1), start.voxel + VoxelTotal(cs, j + 1))
    ensures ClustersShapedBefore(cs, j + 1)
    ensures !RefusedIn(refuse, stmt, stmt + (j + 1) + VoxelTotal(cs, j + 1))
  {
    var at := stmt + j + VoxelTotal(cs, j);
    NotRefusedJoin(refuse, stmt, at, at + 1 + |VoxelsOf(cs[j])|);
  }

  /** Inserting cluster `j` and its voxels after `j` clusters gives the state after `j + 1`. */
  lemma ClustersDoneStep(cs: seq<ClusterIn>, j: nat, sid: string, now: int, refuse: Option<nat>, stmt: nat,
                         start: Counters, clusters0: seq<ClusterRow>, voxels0: seq<VoxelRow>,
                         clusters: seq<ClusterRow>, voxels: seq<VoxelRow>, next: Counters,
                         clusters1: seq<ClusterRow>, voxels1: seq<VoxelRow>, next1: Counters)
    requires j < |cs| && ClustersDone(cs, j, sid, now, refuse, stmt, start, clusters0, voxels0, clusters, voxels, next)
    requires var at := stmt + j + VoxelTotal(cs, j);
      cs[j].centroid.Some? && !RefusedIn(refuse, at, at + 1 + |VoxelsOf(cs[j])|)
    requires clusters1 == clusters + [ClusterRowOf(cs[j], sid, next.cluster, now).value]
    requires voxels1 == voxels + ClusterVoxelRows(VoxelsOf(cs[j]), |VoxelsOf(cs[j])|, next.cluster, next.voxel, now)
    requires next1 == Counters(next.polygon, next.cluster + 1, next.voxel + |VoxelsOf(cs[j])|)
    ensures ClustersDone(cs, j + 1, sid, now, refuse, stmt, start, clusters0, voxels0, clusters1, voxels1, next1)
  {
    assert next.cluster == start.cluster + j && next.voxel == start.voxel + VoxelTotal(cs, j);
    ClusterCountersStep(cs, j, refuse, stmt, start, next, next1);
    ClusterTableStep(cs, j, sid, now, start.cluster, clusters0, clusters, clusters1);
    VoxelTableStep(cs, j, now, start.cluster, start.voxel, voxels0, voxels, voxels1);
  }

  class Store {
    var submissions: seq<SubmissionRow>
    var polygons: seq<PolygonRow>
    var clusters: seq<ClusterRow>
    var voxels: seq<VoxelRow>
    var next: Counters

    function Tables(): Db
      reads this
    {
      Db(submissions, polygons, clusters, voxels)
    }

    /** What holds between requests: the committed tables are consistent. */
    ghost predicate Valid()
      reads this
    {
      Consistent(Tables(), next)
    }

    /** An empty database; SERIAL sequences start at 1. */
    constructor ()
      ensures Valid()
      ensures Tables() == Db([], [], [], []) && next == Counters(1, 1, 1)
    {
      submissions, polygons, clusters, voxels := [], [], [], [];
      next := Counters(1, 1, 1);
    }

    /** ROLLBACK: the tables return to what they were at BEGIN; the sequences keep their values. */
    method Rollback(snapshot: Db)
      modifies this
      ensures Tables() == snapshot && next == old(next)
    {
      submissions, polygons, clusters, voxels := snapshot.submissions, snapshot.polygons, snapshot.clusters, snapshot.voxels;
    }

    /** The voxel INSERTs of one cluster, statements `stmt` onwards (server.js:172-195). */
    method InsertVoxels(vs: seq<VoxelIn>, clusterDbId: nat, now: int, refuse: Option<nat>, stmt: nat)
      returns (failure: Option<Failure>)
      modifies this`voxels, this`next
      ensures next.polygon == old(next).polygon && next.cluster == old(next).cluster && old(next).voxel <= next.voxel
      ensures failure.None? <==> !RefusedIn(refuse, stmt, stmt + |vs|)
      ensures failure.Some? ==> failure.value == Refused(refuse.value)
      ensures failure.None? ==> voxels == old(voxels) + ClusterVoxelRows(vs, |vs|, clusterDbId, old(next).voxel, now)
      ensures failure.None? ==> next.voxel == old(next).voxel + |vs|
    {
      ghost var voxels0, start := voxels, next;
      var k := 0;
      while k < |vs|
        invariant 0 <= k <= |vs|
        invariant next == start.(voxel := start.voxel + k)
        invariant !RefusedIn(refuse, stmt, stmt + k)
        invariant voxels == voxels0 + ClusterVoxelRows(vs, k, clusterDbId, start.voxel, now)
      {
        if refuse == Some(stmt + k) {
          return Some(Refused(stmt + k));
        }
        var row := VoxelRowOf(vs[k], clusterDbId, next.voxel, now);
        AppendAssoc(voxels0, ClusterVoxelRows(vs, k, clusterDbId, start.voxel, now), [row]);
        voxels := voxels + [row];
        next := next.(voxel := next.voxel + 1);
        k := k + 1;
      }
      return None;
    }

    /** One cluster's INSERT followed by its voxels' INSERTs, statements `stmt` onwards (server.js:135-196). */
    method InsertCluster(c: ClusterIn, sid: string, now: int, refuse: Option<nat>, stmt: nat)
      returns (failure: Option<Failure>)
      modifies this`clusters, this`voxels, this`next
      ensures next.polygon == old(next).polygon && old(next).cluster <= next.cluster && old(next).voxel <= next.voxel
      ensures failure.None? <==> c.centroid.Some? && !RefusedIn(refuse, stmt, stmt + 1 + |VoxelsOf(c)|)
      ensures failure.None? ==> clusters == old(clusters) + [ClusterRowOf(c, sid, old(next).cluster, now).value]
      ensures failure.None? ==> voxels == old(voxels) + ClusterVoxelRows(VoxelsOf(c), |VoxelsOf(c)|, old(next).cluster, old(next).voxel, now)
      ensures failure.None? ==> next == Counters(old(next).polygon, old(next).cluster + 1, old(next).voxel + |VoxelsOf(c)|)
    {
      var row := ClusterRowOf(c, sid, next.cluster, now);
      if row.Err? {
        return Some(row.error);
      }
      if refuse == Some(stmt) {
        return Some(Refused(stmt));
      }
      var clusterDbId := next.cluster;
      clusters := clusters + [row.value];
      next := next.(cluster := next.cluster + 1);
      failure := InsertVoxels(VoxelsOf(c), clusterDbId, now, refuse, stmt + 1);
    }

    /** Cluster `j` and its voxels, inside the cluster loop. */
    method InsertNextCluster(cs: seq<ClusterIn>, j: nat, sid: string, now: int, refuse: Option<nat>, stmt: nat,
                             ghost start: Counters, ghost clusters0: seq<ClusterRow>, ghost voxels0: seq<VoxelRow>)
      returns (failure: Option<Failure>)
      requires j < |cs| && ClustersDone(cs, j, sid, now, refuse, stmt, start, clusters0, voxels0, clusters, voxels, next)
      modifies this`clusters, this`voxels, this`next
      ensures next.polygon == start.polygon && old(next).cluster <= next.cluster && old(next).voxel <= next.voxel
      ensures failure.Some? ==> !(ClustersShaped(cs) && !RefusedIn(refuse, stmt, stmt + |cs| + VoxelTotal(cs, |cs|)))
      ensures failure.None? ==> ClustersDone(cs, j + 1, sid, now, refuse, stmt, start, clusters0, voxels0, clusters, voxels, next)
    {
      failure := InsertCluster(cs[j], sid, now, refuse, stmt + j + VoxelTotal(cs, j));
      if failure.Some? {
        if cs[j].centroid.Some? {
          ClusterRefusalWithin(cs, j, refuse, stmt);
        } else {
          ClusterNotShaped(cs, j);
        }
        return;
      }
      ClustersDoneStep(cs, j, sid, now, refuse, stmt, start, clusters0, voxels0,
                       old(clusters), old(voxels), old(next), clusters, voxels, next);
    }

    /** The cluster INSERTs, each followed by its voxels, statements `stmt` onwards (server.js:134-197). */
    method InsertClusters(cs: seq<ClusterIn>, sid: string, now: int, refuse: Option<nat>, stmt: nat)
      returns (failure: Option<Failure>)
      modifies this`clusters, this`voxels, this`next
      ensures next.polygon == old(next).polygon && old(next).cluster <= next.cluster && old(next).voxel <= next.voxel
      ensures failure.None? <==> ClustersShaped(cs) && !RefusedIn(refuse, stmt, stmt + |cs| + VoxelTotal(cs, |cs|))
      ensures failure.None? ==> clusters == old(clusters) + ClusterRows(cs, |cs|, sid, old(next).cluster, now)
      ensures failure.None? ==> voxels == old(voxels) + VoxelRows(cs, |cs|, old(next).cluster, old(next).voxel, now)
      ensures failure.None? ==> next == Counters(old(next).polygon, old(next).cluster + |cs|, old(next).voxel + VoxelTotal(cs, |cs|))
    {
      ghost var clusters0, voxels0, start := clusters, voxels, next;
      failure := None;
      var j := 0;
      while j < |cs|
        invariant 0 <= j <= |cs| && failure.None?
        invariant start.polygon == next.polygon && start.cluster <= next.cluster && start.voxel <= next.voxel
        invariant ClustersDone(cs, j, sid, now, refuse, stmt, start, clusters0, voxels0, clusters, voxels, next)
      {
        failure := InsertNextCluster(cs, j, sid, now, refuse, stmt, start, clusters0, voxels0);
        if failure.Some? {
          return;
        }
        j := j + 1;
      }
    }

    /** The polygon INSERTs, statements `stmt` onwards (server.js:105-131). */
    method InsertPolygons(ps: seq<PolygonIn>, sid: string, now: int, refuse: Option<nat>, stmt: nat)
      returns (failure: Option<Failure>)
      modifies this`polygons, this`next
      ensures old(next).polygon <= next.polygon && next.cluster == old(next).cluster && next.voxel == old(next).voxel
      ensures failure.None? <==> PolygonsShaped(ps) && !RefusedIn(refuse, stmt, stmt + |ps|)
      ensures failure.None? ==> polygons == old(polygons) + PolygonRows(ps, |ps|, sid, old(next).polygon, now)
      ensures failure.None? ==> next.polygon == old(next).polygon + |ps|
    {
      ghost var polygons0, start := polygons, next;
      var i := 0;
      while i < |ps|
        invariant 0 <= i <= |ps|
        invariant next == start.(polygon := start.polygon + i)
        invariant PolygonsShapedBefore(ps, i)
        invariant !RefusedIn(refuse, stmt, stmt + i)
        invariant polygons == polygons0 + PolygonRows(ps, i, sid, start.polygon, now)
      {
        var row := PolygonRowOf(ps[i], sid, next.polygon, now);
        if row.Err? {
          return Some(row.error);
        }
        if refuse == Some(stmt + i) {
          return Some(Refused(stmt + i));
        }
        AppendAssoc(polygons0, PolygonRows(ps, i, sid, start.polygon, now), [row.value]);
        polygons := polygons + [row.value];
        next := next.(polygon := next.polygon + 1);
        i := i + 1;
      }
      return None;
    }

    /**
     * BEGIN, the INSERTs and COMMIT of the handler (server.js:55-199): it
     * fails exactly when the submission does not complete, and on success
     * the tables hold every derived row and the sequences have advanced.
     */
    method Transaction(p: Submission, sid: string, now: int, refuse: Option<nat>) returns (failure: Option<Failure>)
      modifies this`submissions, this`polygons, this`clusters, this`voxels, this`next
      ensures failure.None? <==> Completes(p, refuse)
      ensures failure.None? ==> Tables() == Append(old(Tables()), Derived(p, sid, now, old(next)))
      ensures failure.None? ==> next == Advanced(p, old(next))
      ensures old(next).polygon <= next.polygon && old(next).cluster <= next.cluster && old(next).voxel <= next.voxel
    {
      CompletesStages(p, refuse);
      if refuse == Some(0) {
        return Some(Refused(0));
      }
      var ps := Elements(p.groundPolygons);
      var cs := Elements(p.clusters);
      if refuse == Some(1) {
        return Some(Refused(1));
      }
      submissions := submissions + [SubmissionRowOf(p, sid, now)];
      failure := InsertPolygons(ps, sid, now, refuse, 2);
      if failure.Some? {
        return;
      }
      failure := InsertClusters(cs, sid, now, refuse, 2 + |ps|);
      if failure.None? && refuse == Some(StatementCount(p) - 1) {
        failure := Some(Refused(refuse.value));    // COMMIT refused
      }
    }

    /**
     * The whole handler (server.js:51-226): the transaction, and on any
     * exception ROLLBACK and a 500 response. Either every derived row is in
     * the tables or none is, and the tables stay consistent.
     */
    method Submit(p: Submission, sid: string, now: int, refuse: Option<nat>) returns (resp: Response)
      requires Valid()
      modifies this
      ensures Valid()
      ensures resp.Created? <==> Completes(p, refuse)
      ensures resp.Created? ==> resp == Created(sid, SavedMessage, StatsOf(p))
      ensures resp.Created? ==> Tables() == Append(old(Tables()), Derived(p, sid, now, old(next)))
      ensures resp.Created? ==> next == Advanced(p, old(next))
      ensures resp.Failed? ==> resp.error == SaveFailedMessage && Tables() == old(Tables())
      ensures old(next).polygon <= next.polygon && old(next).cluster <= next.cluster && old(next).voxel <= next.voxel
    {
      var snapshot := Tables();
      ghost var start := next;
      var failure := Transaction(p, sid, now, refuse);
      if failure.Some? {
        Rollback(snapshot);
        ConsistentAsSequencesAdvance(snapshot, start, next);
        return Failed(SaveFailedMessage, failure.value);
      }
      CommitConsistent(snapshot, p, sid, now, start);
      resp := Created(sid, SavedMessage, StatsOf(p));
    }
  }
}
