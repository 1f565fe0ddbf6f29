/**
 * `GET /api/export/geojson` (server.js:343-512): one FeatureCollection
 * holding a point feature per cluster centroid, then a point feature per
 * voxel, then a feature per ground polygon, each carrying its row's columns
 * and its submission's, and a metadata header with the totals.
 *
 * JavaScript's `String(v)` for the template-literal ids is the parameter
 * `show`, and the clock read of `generated_at` is the parameter
 * `generatedAt`.
 */
module GeoJson {

  import opened JsValues
  import opened Schema
  import opened Joins
  import opened Sequences

  const Description: string := "Complete export with all voxels, clusters, ground polygons, tags, comments, and timestamps"

  datatype Geometry =
    | Point(coordinates: seq<Value>)   // `{type: 'Point', coordinates}`
    | Stored(json: Value)              // a polygon's stored `geometry_json`

  /** A feature's `properties`; the constructor is its `feature_type`. */
  datatype Properties =
    | ClusterCentroid(
        clusterId: Value, clusterDbId: nat, submissionId: string, userId: Value, clusterType: Value,
        voxelCount: nat, groundAreaM2: Value, tags: Value, comment: Value, sessionTimestamp: Value,
        sessionLng: Value, sessionLat: Value, radiusMeters: Value, clusterCreatedAt: int, submissionCreatedAt: int)
    | Voxel(
        voxelId: nat, voxelKey: Value, heightMeters: Value, clusterId: Value, clusterDbId: nat,
        clusterType: Value, submissionId: string, userId: Value, tags: Value, comment: Value,
        sessionTimestamp: Value, voxelCreatedAt: int, submissionCreatedAt: int)
    | GroundPolygon(
        polygonId: nat, submissionId: string, userId: Value, polygonType: Value, areaM2: Value,
        centerLng: Value, centerLat: Value, sessionTimestamp: Value, polygonCreatedAt: int, submissionCreatedAt: int)

  /** The `feature_type` property. */
  function FeatureType(p: Properties): string {
    match p
    case ClusterCentroid(_, _, _, _, _, _, _, _, _, _, _, _, _, _, _) => "cluster_centroid"
    case Voxel(_, _, _, _, _, _, _, _, _, _, _, _, _) => "voxel"
    case GroundPolygon(_, _, _, _, _, _, _, _, _, _) => "ground_polygon"
  }

  datatype Feature = Feature(id: string, geometry: Geometry, properties: Properties)

  datatype Metadata = Metadata(
    generatedAt: string,
    totalFeatures: nat,
    totalClusters: nat,
    totalVoxels: nat,
    totalGroundPolygons: nat,
    description: string)

  datatype FeatureCollection = FeatureCollection(metadata: Metadata, features: seq<Feature>)

  /** The feature of one cluster row (server.js:419-444). */
  function ClusterFeature(j: ClusterJoin, show: Value -> string): (f: Feature)
    ensures FeatureType(f.properties) == "cluster_centroid"
    ensures f.properties.clusterDbId == j.cluster.dbId && f.properties.submissionId == j.cluster.submissionId
  {
    var c, s := j.cluster, j.submission;
    Feature(
      "cluster_" + Text(c.clusterId, show),
      Point([c.centroidLng, c.centroidLat, c.centroidHeight]),
      ClusterCentroid(c.clusterId, c.dbId, c.submissionId, s.userId, c.clusterType, c.voxelCount,
                      c.groundAreaM2, c.tags, c.comment, s.sessionTimestamp, s.userLng, s.userLat,
                      s.radiusMeters, c.createdAt, s.createdAt))
  }

  /** The feature of one voxel row (server.js:449-472). */
  function VoxelFeature(j: VoxelJoin, show: Value -> string): (f: Feature)
    ensures FeatureType(f.properties) == "voxel"
    ensures f.properties.voxelId == j.voxel.dbId && f.properties.clusterDbId == j.voxel.clusterDbId
  {
    var v, c, s := j.voxel, j.cluster, j.submission;
    Feature(
      "voxel_" + Text(Num(v.dbId as real), show),
      Point([v.lng, v.lat, v.height]),
      Voxel(v.dbId, v.voxelKey, v.heightMeters, c.clusterId, v.clusterDbId, c.clusterType,
            c.submissionId, s.userId, c.tags, c.comment, s.sessionTimestamp, v.createdAt, s.createdAt))
  }

  /** The feature of one ground polygon row (server.js:477-494). */
  function PolygonFeature(j: PolygonJoin, show: Value -> string): (f: Feature)
    ensures FeatureType(f.properties) == "ground_polygon"
    ensures f.properties.polygonId == j.polygon.dbId && f.properties.submissionId == j.polygon.submissionId
  {
    var gp, s := j.polygon, j.submission;
    Feature(
      "ground_polygon_" + Text(Num(gp.dbId as real), show),
      Stored(gp.geometryJson),
      GroundPolygon(gp.dbId, gp.submissionId, s.userId, gp.polygonType, gp.areaM2, gp.centerLng,
                    gp.centerLat, s.sessionTimestamp, gp.createdAt, s.createdAt))
  }

  /** The features of the first `n` rows of each query, in row order. */
  function ClusterFeatures(rows: seq<ClusterJoin>, n: nat, show: Value -> string): (r: seq<Feature>)
    requires n <= |rows|
    ensures |r| == n
  {
    if n == 0 then [] else ClusterFeatures(rows, n - 1, show) + [ClusterFeature(rows[n - 1], show)]
  }

  function VoxelFeatures(rows: seq<VoxelJoin>, n: nat, show: Value -> string): (r: seq<Feature>)
    requires n <= |rows|
    ensures |r| == n
  {
    if n == 0 then [] else VoxelFeatures(rows, n - 1, show) + [VoxelFeature(rows[n - 1], show)]
  }

  function PolygonFeatures(rows: seq<PolygonJoin>, n: nat, show: Value -> string): (r: seq<Feature>)
    requires n <= |rows|
    ensures |r| == n
  {
    if n == 0 then [] else PolygonFeatures(rows, n - 1, show) + [PolygonFeature(rows[n - 1], show)]
  }

  lemma {:induction false} ClusterFeaturesAt(rows: seq<ClusterJoin>, n: nat, show: Value -> string, k: nat)
    requires k < n <= |rows|
    ensures ClusterFeatures(rows, n, show)[k] == ClusterFeature(rows[k], show)
  {
    if k < n - 1 {
      ClusterFeaturesAt(rows, n - 1, show, k);
    }
  }

  lemma {:induction false} VoxelFeaturesAt(rows: seq<VoxelJoin>, n: nat, show: Value -> string, k: nat)
    requires k < n <= |rows|
    ensures VoxelFeatures(rows, n, show)[k] == VoxelFeature(rows[k], show)
  {
    if k < n - 1 {
      VoxelFeaturesAt(rows, n - 1, show, k);
    }
  }

  lemma {:induction false} PolygonFeaturesAt(rows: seq<PolygonJoin>, n: nat, show: Value -> string, k: nat)
    requires k < n <= |rows|
    ensures PolygonFeatures(rows, n, show)[k] == PolygonFeature(rows[k], show)
  {
    if k < n - 1 {
      PolygonFeaturesAt(rows, n - 1, show, k);
    }
  }

  /** The `features` array: clusters, then voxels, then ground polygons. */
  function Features(db: Db, show: Value -> string): seq<Feature> {
    var cs, vs, ps := ExportedClusters(db), ExportedVoxels(db), ExportedPolygons(db);
    ClusterFeatures(cs, |cs|, show) + VoxelFeatures(vs, |vs|, show) + PolygonFeatures(ps, |ps|, show)
  }

  /** The response body (server.js:501-510). */
  function Collection(db: Db, show: Value -> string, generatedAt: string): FeatureCollection {
    var cs, vs, ps := ExportedClusters(db), ExportedVoxels(db), ExportedPolygons(db);
    var features := Features(db, show);
    FeatureCollection(Metadata(generatedAt, |features|, |cs|, |vs|, |ps|, Description), features)
  }

  /** Where each row's feature is in the concatenation of the three runs. */
  lemma FeatureRuns(cs: seq<ClusterJoin>, vs: seq<VoxelJoin>, ps: seq<PolygonJoin>, show: Value -> string)
    ensures var f := ClusterFeatures(cs, |cs|, show) + VoxelFeatures(vs, |vs|, show) + PolygonFeatures(ps, |ps|, show);
      && |f| == |cs| + |vs| + |ps|
      && (forall k :: 0 <= k < |cs| ==> f[k] == ClusterFeature(cs[k], show))
      && (forall k :: |cs| <= k < |cs| + |vs| ==> f[k] == VoxelFeature(vs[k - |cs|], show))
      && (forall k :: |cs| + |vs| <= k < |f| ==> f[k] == PolygonFeature(ps[k - |cs| - |vs|], show))
  {
    var a, b, c := ClusterFeatures(cs, |cs|, show), VoxelFeatures(vs, |vs|, show), PolygonFeatures(ps, |ps|, show);
    ThreeRuns(a, b, c);
    forall k | 0 <= k < |cs| ensures a[k] == ClusterFeature(cs[k], show) {
      ClusterFeaturesAt(cs, |cs|, show, k);
    }
    forall k | 0 <= k < |vs| ensures b[k] == VoxelFeature(vs[k], show) {
      VoxelFeaturesAt(vs, |vs|, show, k);
    }
    forall k | 0 <= k < |ps| ensures c[k] == PolygonFeature(ps[k], show) {
      PolygonFeaturesAt(ps, |ps|, show, k);
    }
  }

  /**
   * The features come in three runs, one per query and in its order: the
   * cluster features, then the voxel features, then the ground polygon
   * features; `total_features` is the sum of the three sub-totals.
   */
  lemma CollectionLayout(db: Db, show: Value -> string, generatedAt: string)
    ensures var fc := Collection(db, show, generatedAt);
      var cs, vs, ps := ExportedClusters(db), ExportedVoxels(db), ExportedPolygons(db);
      && fc.metadata.totalClusters == |cs|
      && fc.metadata.totalVoxels == |vs|
      && fc.metadata.totalGroundPolygons == |ps|
      && |fc.features| == fc.metadata.totalFeatures == |cs| + |vs| + |ps|
      && (forall k :: 0 <= k < |cs| ==> fc.features[k] == ClusterFeature(cs[k], show))
      && (forall k :: |cs| <= k < |cs| + |vs| ==> fc.features[k] == VoxelFeature(vs[k - |cs|], show))
      && (forall k :: |cs| + |vs| <= k < |fc.features| ==> fc.features[k] == PolygonFeature(ps[k - |cs| - |vs|], show))
  {
    FeatureRuns(ExportedClusters(db), ExportedVoxels(db), ExportedPolygons(db), show);
  }

  /**
   * On a consistent database with unique submission ids the totals are the
   * table sizes: every cluster, voxel and ground polygon is exported once.
   */
  lemma TotalsAreTableSizes(db: Db, next: Counters, show: Value -> string, generatedAt: string)
    requires Consistent(db, next) && UniqueSubmissionIds(db.submissions)
    ensures var m := Collection(db, show, generatedAt).metadata;
      && m.totalClusters == |db.clusters|
      && m.totalVoxels == |db.voxels|
      && m.totalGroundPolygons == |db.polygons|
      && m.totalFeatures == |db.clusters| + |db.voxels| + |db.polygons|
  {
    ExportedCounts(db, next);
  }

  /** `clustersResult.rows.forEach(row => features.push(...))` (server.js:418-445). */
  method PushClusterFeatures(features: seq<Feature>, rows: seq<ClusterJoin>, show: Value -> string)
    returns (pushed: seq<Feature>)
    ensures pushed == features + ClusterFeatures(rows, |rows|, show)
  {
    pushed := features;
    var i := 0;
    while i < |rows|
      invariant i <= |rows|
      invariant pushed == features + ClusterFeatures(rows, i, show)
    {
      AppendAssoc(features, ClusterFeatures(rows, i, show), [ClusterFeature(rows[i], show)]);
      pushed := pushed + [ClusterFeature(rows[i], show)];
      i := i + 1;
    }
  }

  /** `voxelsResult.rows.forEach(row => features.push(...))` (server.js:448-473). */
  method PushVoxelFeatures(features: seq<Feature>, rows: seq<VoxelJoin>, show: Value -> string)
    returns (pushed: seq<Feature>)
    ensures pushed == features + VoxelFeatures(rows, |rows|, show)
  {
    pushed := features;
    var i := 0;
    while i < |rows|
      invariant i <= |rows|
      invariant pushed == features + VoxelFeatures(rows, i, show)
    {
      AppendAssoc(features, VoxelFeatures(rows, i, show), [VoxelFeature(rows[i], show)]);
      pushed := pushed + [VoxelFeature(rows[i], show)];
      i := i + 1;
    }
  }

  /** `groundPolygonsResult.rows.forEach(row => features.push(...))` (server.js:476-495). */
  method PushPolygonFeatures(features: seq<Feature>, rows: seq<PolygonJoin>, show: Value -> string)
    returns (pushed: seq<Feature>)
    ensures pushed == features + PolygonFeatures(rows, |rows|, show)
  {
    pushed := features;
    var i := 0;
    while i < |rows|
      invariant i <= |rows|
      invariant pushed == features + PolygonFeatures(rows, i, show)
    {
      AppendAssoc(features, PolygonFeatures(rows, i, show), [PolygonFeature(rows[i], show)]);
      pushed := pushed + [PolygonFeature(rows[i], show)];
      i := i + 1;
    }
  }

  /** The handler: the three queries, the three loops filling `features`, and the response (server.js:343-512). */
  method ExportGeoJson(db: Db, show: Value -> string, generatedAt: string) returns (fc: FeatureCollection)
    ensures fc == Collection(db, show, generatedAt)
  {
    var clusters := ExportedClusters(db);
    var voxels := ExportedVoxels(db);
    var polygons := ExportedPolygons(db);
    ghost var a, b, c := ClusterFeatures(clusters, |clusters|, show), VoxelFeatures(voxels, |voxels|, show),
      PolygonFeatures(polygons, |polygons|, show);
    var features: seq<Feature> := [];
    features := PushClusterFeatures(features, clusters, show);
    assert features == a;
    features := PushVoxelFeatures(features, voxels, show);
    assert features == a + b;
    features := PushPolygonFeatures(features, polygons, show);
    assert features == Features(db, show);
    fc := FeatureCollection(
      Metadata(generatedAt, |features|, |clusters|, |voxels|, |polygons|, Description),
      features);
  }
}
