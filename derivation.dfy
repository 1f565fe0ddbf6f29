/**
 * How the submission handler turns one request body into table rows: the
 * default applied to every optional field (with JavaScript's `||`, so any
 * falsy value, `0` included, takes the default), the TypeErrors a missing
 * nested object raises, and the rows of the whole insert sequence.
 */
module Derivation {

  import opened Wrappers
  import opened JsValues
  import opened Schema
  import opened Payload

  /** Why a submission was rolled back (the `details` of the 500 response). */
  datatype Failure =
    | TypeError               // a missing `center` or `centroid` was dereferenced
    | Refused(statement: nat) // the database refused statement number `statement`

  /** The `stats` of the 201 response. */
  datatype Stats = Stats(dislikedVoxels: nat, likedVoxels: nat, groundPolygons: nat, clusters: nat)

  const AnonymousUser: string := "anonymous"
  const DefaultRadiusMeters: real := 1000.0

  /** `userLocation?.lng` and `userLocation?.lat`. */
  function UserLng(p: Submission): Value {
    if p.userLocation.Some? then p.userLocation.value.lng else Undefined
  }

  function UserLat(p: Submission): Value {
    if p.userLocation.Some? then p.userLocation.value.lat else Undefined
  }

  /** The `submissions` row (server.js:89-100). */
  function SubmissionRowOf(p: Submission, sid: string, now: int): (r: SubmissionRow)
    ensures r.submissionId == sid && r.createdAt == now
  {
    SubmissionRow(
      sid,
      Or(p.userId, Str(AnonymousUser)),
      DateOf(p.sessionTimestamp),
      Or(UserLng(p), Null),
      Or(UserLat(p), Null),
      Or(p.radiusMeters, Num(DefaultRadiusMeters)),
      LengthOr0(p.dislikedVoxels),
      LengthOr0(p.likedVoxels),
      LengthOr0(p.clusters),
      if Truthy(p.sessionMetadata) then Stringify(p.sessionMetadata) else Null,
      now)
  }

  /** The defaults the `submissions` row applies to the body's fields (server.js:92-99). */
  lemma SubmissionRowDefaults(p: Submission, sid: string, now: int)
    ensures var r := SubmissionRowOf(p, sid, now);
      && Truthy(r.userId)
      && (Truthy(p.userId) ==> r.userId == p.userId)
      && (!Truthy(p.userId) ==> r.userId == Str(AnonymousUser))
      && r.sessionTimestamp == DateOf(p.sessionTimestamp)
      && (r.userLng == Null <==> !Truthy(UserLng(p)))
      && (r.userLng != Null ==> r.userLng == UserLng(p))
      && (r.userLat == Null <==> !Truthy(UserLat(p)))
      && (r.userLat != Null ==> r.userLat == UserLat(p))
      && Truthy(r.radiusMeters)
      && (Truthy(p.radiusMeters) ==> r.radiusMeters == p.radiusMeters)
      && (!Truthy(p.radiusMeters) ==> r.radiusMeters == Num(DefaultRadiusMeters))
      && r.totalDislikedVoxels == LengthOr0(p.dislikedVoxels)
      && r.totalLikedVoxels == LengthOr0(p.likedVoxels)
      && r.totalClusters == LengthOr0(p.clusters)
      && (r.sessionMetadata == Null <==> !Truthy(p.sessionMetadata))
      && (Truthy(p.sessionMetadata) ==> r.sessionMetadata == Serialized(p.sessionMetadata))
  {
  }

  /** `a[i]`: `undefined` past the end of the array. */
  function At(a: seq<Value>, i: nat): Value {
    if i < |a| then a[i] else Undefined
  }

  /** The `ground_polygons` row of one polygon (server.js:108, 121-128). */
  function PolygonRowOf(poly: PolygonIn, sid: string, dbId: nat, now: int): (r: Result<PolygonRow, Failure>)
    ensures r.Err? <==> poly.center.None?
    ensures r.Err? ==> r.error == TypeError
    ensures r.Ok? ==> r.value.dbId == dbId && r.value.submissionId == sid && r.value.createdAt == now
  {
    if poly.center.None? then Err(TypeError)
    else
      Ok(PolygonRow(
        dbId,
        sid,
        Param(poly.polygonType),
        Param(Stringify(poly.geometry)),
        Or(poly.area, Null),
        Param(At(poly.center.value, 0)),
        Param(At(poly.center.value, 1)),
        now))
  }

  /** The `clusters` row of one cluster (server.js:153-164). */
  function ClusterRowOf(c: ClusterIn, sid: string, dbId: nat, now: int): (r: Result<ClusterRow, Failure>)
    ensures r.Err? <==> c.centroid.None?
    ensures r.Err? ==> r.error == TypeError
    ensures r.Ok? ==> r.value.dbId == dbId && r.value.submissionId == sid && r.value.createdAt == now
    ensures r.Ok? ==> r.value.voxelCount == LengthOr0(c.voxels)
  {
    if c.centroid.None? then Err(TypeError)
    else
      Ok(ClusterRow(
        dbId,
        sid,
        Param(c.id),
        Param(c.clusterType),
        LengthOr0(c.voxels),
        Or(c.groundAreaM2, Null),
        Param(c.centroid.value.lng),
        Param(c.centroid.value.lat),
        Or(c.centroid.value.height, Num(0.0)),
        Or(c.tags, Arr([])),
        Or(c.comment, Str("")),
        now))
  }

  /** The `voxels` row of one voxel of the cluster whose id is `clusterDbId` (server.js:183-190). */
  function VoxelRowOf(v: VoxelIn, clusterDbId: nat, dbId: nat, now: int): (r: VoxelRow)
    ensures r.dbId == dbId && r.clusterDbId == clusterDbId && r.createdAt == now
  {
    VoxelRow(dbId, clusterDbId, Param(v.key), Param(v.lng), Param(v.lat),
             Or(v.height, Num(0.0)), Or(v.height, Num(0.0)), now)
  }

  /** The defaults of a `ground_polygons` row (server.js:121-128). */
  lemma PolygonRowDefaults(poly: PolygonIn, sid: string, dbId: nat, now: int)
    requires poly.center.Some?
    ensures var r := PolygonRowOf(poly, sid, dbId, now).value;
      && (r.areaM2 == Null <==> !Truthy(poly.area))
      && (r.areaM2 != Null ==> r.areaM2 == poly.area)
      && (r.geometryJson == Null <==> poly.geometry == Undefined)
      && (|poly.center.value| < 2 ==> r.centerLat == Null)
  {
  }

  /** The defaults of a `clusters` row (server.js:153-164). */
  lemma ClusterRowDefaults(c: ClusterIn, sid: string, dbId: nat, now: int)
    requires c.centroid.Some?
    ensures var r := ClusterRowOf(c, sid, dbId, now).value;
      && (r.groundAreaM2 == Null <==> !Truthy(c.groundAreaM2))
      && (r.groundAreaM2 != Null ==> r.groundAreaM2 == c.groundAreaM2)
      && r.centroidHeight == (if Truthy(c.centroid.value.height) then c.centroid.value.height else Num(0.0))
      && r.tags == (if Truthy(c.tags) then c.tags else Arr([]))
      && r.comment == (if Truthy(c.comment) then c.comment else Str(""))
  {
  }

  /** A voxel's height defaults to 0 and is stored twice (server.js:183-190). */
  lemma VoxelRowDefaults(v: VoxelIn, clusterDbId: nat, dbId: nat, now: int)
    ensures var r := VoxelRowOf(v, clusterDbId, dbId, now);
      && r.height == r.heightMeters
      && (Truthy(v.height) ==> r.height == v.height)
      && (!Truthy(v.height) ==> r.height == Num(0.0))
  {
  }

  // ---- the whole insert sequence ----
  //
  // The rows of a sequence of inputs are defined on its first `n` elements,
  // so that the handler's loops, which insert one element per iteration,
  // extend them one element at a time.

  /** The first `n` polygons have a `center`. */
  predicate PolygonsShapedBefore(ps: seq<PolygonIn>, n: nat)
    requires n <= |ps|
  {
    forall i :: 0 <= i < n ==> ps[i].center.Some?
  }

  /** The first `n` clusters have a `centroid`. */
  predicate ClustersShapedBefore(cs: seq<ClusterIn>, n: nat)
    requires n <= |cs|
  {
    forall i :: 0 <= i < n ==> cs[i].centroid.Some?
  }

  predicate PolygonsShaped(ps: seq<PolygonIn>) {
    PolygonsShapedBefore(ps, |ps|)
  }

  predicate ClustersShaped(cs: seq<ClusterIn>) {
    ClustersShapedBefore(cs, |cs|)
  }

  /** No step of the handler throws a TypeError on this body. */
  predicate Shaped(p: Submission) {
    PolygonsShaped(Elements(p.groundPolygons)) && ClustersShaped(Elements(p.clusters))
  }

  /** The voxels of a cluster, `[]` when `cluster.voxels` is missing. */
  function VoxelsOf(c: ClusterIn): seq<VoxelIn> {
    Elements(c.voxels)
  }

  /** How many voxels the first `n` clusters hold together. */
  function VoxelTotal(cs: seq<ClusterIn>, n: nat): nat
    requires n <= |cs|
  {
    if n == 0 then 0 else VoxelTotal(cs, n - 1) + |VoxelsOf(cs[n - 1])|
  }

  /** The `ground_polygons` rows of the first `n` polygons, ids allocated from `first` in order. */
  function PolygonRows(ps: seq<PolygonIn>, n: nat, sid: string, first: nat, now: int): (r: seq<PolygonRow>)
    requires n <= |ps| && PolygonsShapedBefore(ps, n)
    ensures |r| == n
  {
    if n == 0 then []
    else PolygonRows(ps, n - 1, sid, first, now) + [PolygonRowOf(ps[n - 1], sid, first + n - 1, now).value]
  }

  /** The `clusters` rows of the first `n` clusters, ids allocated from `first` in order. */
  function ClusterRows(cs: seq<ClusterIn>, n: nat, sid: string, first: nat, now: int): (r: seq<ClusterRow>)
    requires n <= |cs| && ClustersShapedBefore(cs, n)
    ensures |r| == n
  {
    if n == 0 then []
    else ClusterRows(cs, n - 1, sid, first, now) + [ClusterRowOf(cs[n - 1], sid, first + n - 1, now).value]
  }

  /** The `voxels` rows of the first `n` voxels of one cluster, ids allocated from `first` in order. */
  function ClusterVoxelRows(vs: seq<VoxelIn>, n: nat, clusterDbId: nat, first: nat, now: int): (r: seq<VoxelRow>)
    requires n <= |vs|
    ensures |r| == n
  {
    if n == 0 then []
    else ClusterVoxelRows(vs, n - 1, clusterDbId, first, now) + [VoxelRowOf(vs[n - 1], clusterDbId, first + n - 1, now)]
  }

  /**
   * The `voxels` rows of the first `n` clusters: cluster `i` has the cluster
   * id `firstCluster + i`, and voxel ids run on from `firstVoxel` across
   * clusters.
   */
  function VoxelRows(cs: seq<ClusterIn>, n: nat, firstCluster: nat, firstVoxel: nat, now: int): (r: seq<VoxelRow>)
    requires n <= |cs|
    ensures |r| == VoxelTotal(cs, n)
  {
    if n == 0 then []
    else
      VoxelRows(cs, n - 1, firstCluster, firstVoxel, now)
        + ClusterVoxelRows(VoxelsOf(cs[n - 1]), |VoxelsOf(cs[n - 1])|, firstCluster + n - 1, firstVoxel + VoxelTotal(cs, n - 1), now)
  }

  /** Every row one successful submission inserts. */
  function Derived(p: Submission, sid: string, now: int, next: Counters): Db
    requires Shaped(p)
  {
    var ps, cs := Elements(p.groundPolygons), Elements(p.clusters);
    Db([SubmissionRowOf(p, sid, now)],
       PolygonRows(ps, |ps|, sid, next.polygon, now),
       ClusterRows(cs, |cs|, sid, next.cluster, now),
       VoxelRows(cs, |cs|, next.cluster, next.voxel, now))
  }

  /**
   * The number of statements of the transaction: BEGIN, the submission
   * INSERT, one INSERT per polygon, per cluster and per voxel, and COMMIT.
   */
  function StatementCount(p: Submission): nat {
    var cs := Elements(p.clusters);
    3 + |Elements(p.groundPolygons)| + |cs| + VoxelTotal(cs, |cs|)
  }

  /** The transaction commits: nothing throws and the database refuses none of its statements. */
  predicate Completes(p: Submission, refuse: Option<nat>) {
    Shaped(p) && (refuse.None? || refuse.value >= StatementCount(p))
  }

  /** The `stats` echoed by the 201 response (server.js:205-210). */
  function StatsOf(p: Submission): (s: Stats)
    ensures s.dislikedVoxels == LengthOr0(p.dislikedVoxels) && s.likedVoxels == LengthOr0(p.likedVoxels)
    ensures s.groundPolygons == LengthOr0(p.groundPolygons) && s.clusters == LengthOr0(p.clusters)
  {
    Stats(LengthOr0(p.dislikedVoxels), LengthOr0(p.likedVoxels), LengthOr0(p.groundPolygons), LengthOr0(p.clusters))
  }

  /** The SERIAL sequences after a committed submission has drawn its ids. */
  function Advanced(p: Submission, next: Counters): (r: Counters)
    ensures next.polygon <= r.polygon && next.cluster <= r.cluster && next.voxel <= r.voxel
  {
    var cs := Elements(p.clusters);
    Counters(next.polygon + |Elements(p.groundPolygons)|, next.cluster + |cs|, next.voxel + VoxelTotal(cs, |cs|))
  }

  // ---- where each input ends up ----

  /** Row `k` of the polygon rows is input polygon `k` with id `first + k`. */
  lemma {:induction false} PolygonRowsAt(ps: seq<PolygonIn>, n: nat, sid: string, first: nat, now: int, k: nat)
    requires n <= |ps| && PolygonsShapedBefore(ps, n) && k < n
    ensures PolygonRowOf(ps[k], sid, first + k, now) == Ok(PolygonRows(ps, n, sid, first, now)[k])
    decreases n
  {
    if k < n - 1 {
      PolygonRowsAt(ps, n - 1, sid, first, now, k);
    }
  }

  /** Row `k` of the cluster rows is input cluster `k` with id `first + k`. */
  lemma {:induction false} ClusterRowsAt(cs: seq<ClusterIn>, n: nat, sid: string, first: nat, now: int, k: nat)
    requires n <= |cs| && ClustersShapedBefore(cs, n) && k < n
    ensures ClusterRowOf(cs[k], sid, first + k, now) == Ok(ClusterRows(cs, n, sid, first, now)[k])
    decreases n
  {
    if k < n - 1 {
      ClusterRowsAt(cs, n - 1, sid, first, now, k);
    }
  }

  /** Row `k` of one cluster's voxel rows is its voxel `k` with id `first + k`. */
  lemma {:induction false} ClusterVoxelRowsAt(vs: seq<VoxelIn>, n: nat, clusterDbId: nat, first: nat, now: int, k: nat)
    requires n <= |vs| && k < n
    ensures ClusterVoxelRows(vs, n, clusterDbId, first, now)[k] == VoxelRowOf(vs[k], clusterDbId, first + k, now)
    decreases n
  {
    if k < n - 1 {
      ClusterVoxelRowsAt(vs, n - 1, clusterDbId, first, now, k);
    }
  }

  /** One more cluster adds its voxels to the total. */
  lemma VoxelTotalStep(cs: seq<ClusterIn>, j: nat)
    requires j < |cs|
    ensures VoxelTotal(cs, j + 1) == VoxelTotal(cs, j) + |VoxelsOf(cs[j])|
  {
  }

  /** The first `m` clusters hold no more voxels than the first `n`. */
  lemma {:induction false} VoxelTotalMonotone(cs: seq<ClusterIn>, m: nat, n: nat)
    requires m <= n <= |cs|
    ensures VoxelTotal(cs, m) <= VoxelTotal(cs, n)
    decreases n
  {
    if m < n {
      VoxelTotalMonotone(cs, m, n - 1);
    }
  }

  /**
   * Voxel rows whose ids run on from `firstVoxel`, stamped `now`, each
   * referencing one of the `count` cluster ids from `firstCluster`.
   */
  ghost predicate VoxelIdsFrom(r: seq<VoxelRow>, firstCluster: nat, count: nat, firstVoxel: nat, now: int) {
    forall k :: 0 <= k < |r| ==>
      r[k].dbId == firstVoxel + k && r[k].createdAt == now &&
      firstCluster <= r[k].clusterDbId < firstCluster + count
  }

  /** The voxel rows of the first `n` clusters reference those clusters and number their own ids in order. */
  lemma {:induction false} VoxelRowsIds(cs: seq<ClusterIn>, n: nat, firstCluster: nat, firstVoxel: nat, now: int)
    requires n <= |cs|
    ensures VoxelIdsFrom(VoxelRows(cs, n, firstCluster, firstVoxel, now), firstCluster, n, firstVoxel, now)
    decreases n
  {
    if n > 0 {
      var front := VoxelRows(cs, n - 1, firstCluster, firstVoxel, now);
      var vs := VoxelsOf(cs[n - 1]);
      var block := ClusterVoxelRows(VoxelsOf(cs[n - 1]), |VoxelsOf(cs[n - 1])|, firstCluster + n - 1, firstVoxel + VoxelTotal(cs, n - 1), now);
      VoxelRowsIds(cs, n - 1, firstCluster, firstVoxel, now);
      var whole := front + block;
      forall k: nat | k < |whole|
        ensures whole[k].dbId == firstVoxel + k && whole[k].createdAt == now
        ensures firstCluster <= whole[k].clusterDbId < firstCluster + n
      {
        if k < |front| {
          assert whole[k] == front[k];
        } else {
          ClusterVoxelRowsAt(vs, |vs|, firstCluster + n - 1, firstVoxel + VoxelTotal(cs, n - 1), now, k - |front|);
          assert whole[k] == block[k - |front|];
        }
      }
    }
  }

  /**
   * Voxel `j` of cluster `i` becomes the row at position
   * `VoxelTotal(cs, i) + j`, with its own id, and that row references
   * cluster `i`'s id.
   */
  lemma {:induction false} VoxelRowsAt(cs: seq<ClusterIn>, n: nat, firstCluster: nat, firstVoxel: nat, now: int, i: nat, j: nat)
    requires n <= |cs| && i < n && j < |VoxelsOf(cs[i])|
    ensures VoxelTotal(cs, i) + j < VoxelTotal(cs, n)
    ensures VoxelRows(cs, n, firstCluster, firstVoxel, now)[VoxelTotal(cs, i) + j]
         == VoxelRowOf(VoxelsOf(cs[i])[j], firstCluster + i, firstVoxel + VoxelTotal(cs, i) + j, now)
    decreases n
  {
    var front := VoxelRows(cs, n - 1, firstCluster, firstVoxel, now);
    var block := ClusterVoxelRows(VoxelsOf(cs[n - 1]), |VoxelsOf(cs[n - 1])|, firstCluster + n - 1, firstVoxel + VoxelTotal(cs, n - 1), now);
    var idx := VoxelTotal(cs, i) + j;
    if i < n - 1 {
      VoxelRowsAt(cs, n - 1, firstCluster, firstVoxel, now, i, j);
      assert (front + block)[idx] == front[idx];
    } else {
      var vs := VoxelsOf(cs[i]);
      ClusterVoxelRowsAt(vs, |vs|, firstCluster + i, firstVoxel + VoxelTotal(cs, i), now, j);
      assert (front + block)[idx] == block[j];
    }
  }

  // ---- which voxel rows reference which cluster row ----

  /** How many of the voxel rows reference the cluster row whose id is `clusterDbId`. */
  function References(vs: seq<VoxelRow>, clusterDbId: nat): nat
    decreases |vs|
  {
    if vs == [] then 0
    else References(vs[..|vs| - 1], clusterDbId) + if vs[|vs| - 1].clusterDbId == clusterDbId then 1 else 0
  }

  lemma {:induction false} ReferencesAppend(a: seq<VoxelRow>, b: seq<VoxelRow>, id: nat)
    ensures References(a + b, id) == References(a, id) + References(b, id)
    decreases |b|
  {
    if b == [] {
      assert a + b == a;
    } else {
      var last := |b| - 1;
      assert (a + b)[..|a + b| - 1] == a + b[..last];
      ReferencesAppend(a, b[..last], id);
    }
  }

  lemma {:induction false} ReferencesNone(vs: seq<VoxelRow>, id: nat)
    requires forall k :: 0 <= k < |vs| ==> vs[k].clusterDbId != id
    ensures References(vs, id) == 0
    decreases |vs|
  {
    if vs != [] {
      ReferencesNone(vs[..|vs| - 1], id);
    }
  }

  /** The voxel rows of one cluster all reference that cluster and no other. */
  lemma {:induction false} ClusterVoxelRowsReferences(vs: seq<VoxelIn>, n: nat, clusterDbId: nat, first: nat, now: int, id: nat)
    requires n <= |vs|
    ensures References(ClusterVoxelRows(vs, n, clusterDbId, first, now), id) == if id == clusterDbId then n else 0
    decreases n
  {
    if n > 0 {
      var front := ClusterVoxelRows(vs, n - 1, clusterDbId, first, now);
      var row := VoxelRowOf(vs[n - 1], clusterDbId, first + n - 1, now);
      ClusterVoxelRowsReferences(vs, n - 1, clusterDbId, first, now, id);
      ReferencesAppend(front, [row], id);
      assert [row][..0] == [];
    }
  }

  /** No voxel row of the first `n` clusters references the cluster id `id` past them. */
  lemma VoxelRowsReferenceNoLater(cs: seq<ClusterIn>, n: nat, firstCluster: nat, firstVoxel: nat, now: int, id: nat)
    requires n <= |cs| && firstCluster + n <= id
    ensures References(VoxelRows(cs, n, firstCluster, firstVoxel, now), id) == 0
  {
    VoxelRowsIds(cs, n, firstCluster, firstVoxel, now);
    ReferencesNone(VoxelRows(cs, n, firstCluster, firstVoxel, now), id);
  }

  /** The voxel rows of cluster `n - 1` reference it, and the earlier rows do not. */
  lemma VoxelRowsLastCluster(cs: seq<ClusterIn>, n: nat, firstCluster: nat, firstVoxel: nat, now: int)
    requires 0 < n <= |cs|
    ensures References(VoxelRows(cs, n, firstCluster, firstVoxel, now), firstCluster + n - 1) == |VoxelsOf(cs[n - 1])|
  {
    var id := firstCluster + n - 1;
    var vs := VoxelsOf(cs[n - 1]);
    var front := VoxelRows(cs, n - 1, firstCluster, firstVoxel, now);
    var block := ClusterVoxelRows(VoxelsOf(cs[n - 1]), |VoxelsOf(cs[n - 1])|, id, firstVoxel + VoxelTotal(cs, n - 1), now);
    ClusterVoxelRowsReferences(vs, |vs|, id, firstVoxel + VoxelTotal(cs, n - 1), now, id);
    VoxelRowsReferenceNoLater(cs, n - 1, firstCluster, firstVoxel, now, id);
    ReferencesAppend(front, block, id);
  }

  /** The voxel rows of cluster `n - 1` do not reference an earlier cluster. */
  lemma VoxelRowsEarlierCluster(cs: seq<ClusterIn>, n: nat, firstCluster: nat, firstVoxel: nat, now: int, i: nat)
    requires i < n - 1 && n <= |cs|
    ensures References(VoxelRows(cs, n, firstCluster, firstVoxel, now), firstCluster + i)
         == References(VoxelRows(cs, n - 1, firstCluster, firstVoxel, now), firstCluster + i)
  {
    var id := firstCluster + i;
    var vs := VoxelsOf(cs[n - 1]);
    var front := VoxelRows(cs, n - 1, firstCluster, firstVoxel, now);
    var block := ClusterVoxelRows(VoxelsOf(cs[n - 1]), |VoxelsOf(cs[n - 1])|, firstCluster + n - 1, firstVoxel + VoxelTotal(cs, n - 1), now);
    assert id != firstCluster + n - 1;
    ClusterVoxelRowsReferences(vs, |vs|, firstCluster + n - 1, firstVoxel + VoxelTotal(cs, n - 1), now, id);
    assert References(block, id) == 0;
    ReferencesAppend(front, block, id);
  }

  /** Cluster `i`'s voxels are exactly the voxel rows that reference its id. */
  lemma {:induction false} VoxelRowsPerCluster(cs: seq<ClusterIn>, n: nat, firstCluster: nat, firstVoxel: nat, now: int, i: nat)
    requires n <= |cs| && i < n
    ensures References(VoxelRows(cs, n, firstCluster, firstVoxel, now), firstCluster + i) == |VoxelsOf(cs[i])|
    decreases n
  {
    if i < n - 1 {
      VoxelRowsPerCluster(cs, n - 1, firstCluster, firstVoxel, now, i);
      VoxelRowsEarlierCluster(cs, n, firstCluster, firstVoxel, now, i);
    } else {
      VoxelRowsLastCluster(cs, n, firstCluster, firstVoxel, now);
    }
  }

  /**
   * At ingestion the snapshot `voxel_count` of every cluster row equals the
   * number of voxel rows inserted that reference that row's id.
   */
  lemma VoxelCountMatchesRows(cs: seq<ClusterIn>, sid: string, firstCluster: nat, firstVoxel: nat, now: int, i: nat)
    requires ClustersShaped(cs) && i < |cs|
    ensures var row := ClusterRows(cs, |cs|, sid, firstCluster, now)[i];
      row.voxelCount == References(VoxelRows(cs, |cs|, firstCluster, firstVoxel, now), row.dbId)
  {
    var row := ClusterRows(cs, |cs|, sid, firstCluster, now)[i];
    ClusterRowsAt(cs, |cs|, sid, firstCluster, now, i);
    assert row.dbId == firstCluster + i && row.voxelCount == |VoxelsOf(cs[i])|;
    VoxelRowsPerCluster(cs, |cs|, firstCluster, firstVoxel, now, i);
  }

  /**
   * The rows of one submission: one submission row, one row per polygon,
   * cluster and voxel; every polygon and cluster row carries the new
   * submission id, every voxel row the id of a cluster row inserted with it,
   * and the SERIAL ids are drawn in order from the sequences.
   */
  lemma DerivedExtends(db: Db, p: Submission, sid: string, now: int, next: Counters)
    requires Shaped(p)
    ensures var d := Derived(p, sid, now, next);
      && |d.submissions| == 1 && d.submissions[0].submissionId == sid
      && |d.polygons| == |Elements(p.groundPolygons)|
      && |d.clusters| == |Elements(p.clusters)|
      && |d.voxels| == VoxelTotal(Elements(p.clusters), |Elements(p.clusters)|)
      && (forall k :: 0 <= k < |d.polygons| ==> d.polygons[k].submissionId == sid)
      && (forall k :: 0 <= k < |d.clusters| ==> d.clusters[k].submissionId == sid)
      && Extends(db, d, next, Advanced(p, next))
  {
    var d := Derived(p, sid, now, next);
    var ps, cs := Elements(p.groundPolygons), Elements(p.clusters);
    assert sid in SubmissionIds(d.submissions) by {
      assert d.submissions[0].submissionId == sid;
    }
    forall k | 0 <= k < |d.polygons| ensures d.polygons[k].submissionId == sid && d.polygons[k].dbId == next.polygon + k {
      PolygonRowsAt(ps, |ps|, sid, next.polygon, now, k);
    }
    forall k | 0 <= k < |d.clusters| ensures d.clusters[k].submissionId == sid && d.clusters[k].dbId == next.cluster + k {
      ClusterRowsAt(cs, |cs|, sid, next.cluster, now, k);
    }
    VoxelRowsIds(cs, |cs|, next.cluster, next.voxel, now);
    forall k | 0 <= k < |d.voxels| ensures d.voxels[k].clusterDbId in ClusterDbIds(d.clusters) {
      var c := d.voxels[k].clusterDbId - next.cluster;
      assert d.clusters[c].dbId == d.voxels[k].clusterDbId;
    }
  }

  /** Committing a shaped submission keeps a consistent database consistent. */
  lemma CommitConsistent(db: Db, p: Submission, sid: string, now: int, next: Counters)
    requires Consistent(db, next) && Shaped(p)
    ensures Consistent(Append(db, Derived(p, sid, now, next)), Advanced(p, next))
  {
    DerivedExtends(db, p, sid, now, next);
    AppendConsistent(db, Derived(p, sid, now, next), next, Advanced(p, next));
  }
}
