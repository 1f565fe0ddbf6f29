/**
 * The JSON body of `POST /api/submissions`, as the handler destructures it.
 * Leaves are arbitrary JavaScript values (`Undefined` when the property is
 * missing). A nested object or array the handler dereferences is an
 * `Option`: `None` stands for a missing property or a JSON `null`, both of
 * which make `x?.y` undefined and `x.y` / `x[0]` throw a TypeError.
 */
module Payload {

  import opened Wrappers
  import opened JsValues

  /** `userLocation`: `{lng, lat}`. */
  datatype Location = Location(lng: Value, lat: Value)

  /** One element of `groundPolygons`. */
  datatype PolygonIn = PolygonIn(
    polygonType: Value,           // `polygon.type`
    geometry: Value,
    area: Value,
    center: Option<seq<Value>>)   // `[lng, lat]`

  /** `cluster.centroid`: `{lng, lat, height}`. */
  datatype Centroid = Centroid(lng: Value, lat: Value, height: Value)

  /** One element of `cluster.voxels`. */
  datatype VoxelIn = VoxelIn(key: Value, lng: Value, lat: Value, height: Value)

  /** One element of `clusters`. */
  datatype ClusterIn = ClusterIn(
    id: Value,                    // the client's own cluster id
    clusterType: Value,           // `cluster.type`
    voxels: Option<seq<VoxelIn>>,
    groundAreaM2: Value,
    centroid: Option<Centroid>,
    tags: Value,
    comment: Value)

  datatype Submission = Submission(
    userId: Value,
    sessionTimestamp: Value,
    userLocation: Option<Location>,
    radiusMeters: Value,
    dislikedVoxels: Option<seq<Value>>,   // only the length is kept
    likedVoxels: Option<seq<Value>>,      // only the length is kept
    groundPolygons: Option<seq<PolygonIn>>,
    clusters: Option<seq<ClusterIn>>,
    sessionMetadata: Value)
}
