# TagYourCity backend: a verified model of its core

The TagYourCity backend (`server.js`) is an Express service over a
PostgreSQL database of four tables: `submissions`, `ground_polygons`,
`clusters` and `voxels`. This project models its four pieces of logic in
Dafny and proves what each promises.

- **Ingestion** (`POST /api/submissions`). One request body becomes one
  submission row, one row per ground polygon, one per cluster and one per
  voxel. Every optional field takes its default through JavaScript's `||`.
  All INSERTs run inside one transaction. `Ingestion.Store` is the database:
  its four tables and three SERIAL sequences are fields, and `Submit` either
  appends every derived row and answers 201, or rolls back to the tables it
  started from and answers 500.
- **Read queries** (`GET /api/submissions`, `GET /api/submissions/:id`). These
  are pure functions of the tables. The listing returns at most 100 rows,
  newest first. The lookup returns not-found when no row has the id, and
  otherwise the submission, its clusters oldest first and its ground polygons
  reshaped to `{type, geometry, area, center}`.
- **GeoJSON export** (`GET /api/export/geojson`). It joins the tables and
  pushes one feature per cluster, then one per voxel, then one per ground
  polygon. Each feature is tagged with its `feature_type`. A metadata header
  gives the totals.
- **CSV export** (`GET /api/export/csv`). It writes a fixed 15-name header
  line, then one line per cluster. Each field is read with the
  `session_`→`user_` rename and its fallback. Fields are quoted as in
  section 2, rules 6 and 7, of RFC 4180. A reader of the same format, which
  belongs to the model, states the round trip.

Modules, in dependency order:

- `Wrappers`: `Option` and `Result`.
- `JsValues`: JavaScript values, truthiness, `||`, `String(v)`.
- `Schema`: the tables and their consistency.
- `Payload`: the request body.
- `Derivation`: the rows and defaults of one submission.
- `Sorting`: ORDER BY and LIMIT.
- `Selection`: WHERE.
- `Sequences`: two concatenation lemmas (regrouping `a + b + c`, indexing into three concatenated runs), and `Map` with the fact that mapping a reordering gives a reordering of the images.
- `Ingestion`: the `Store` class and the handler.
- `Queries`: the read endpoints.
- `Joins`: the export queries.
- `GeoJson`: the GeoJSON export.
- `CsvFormat`: the CSV writer pieces, the reader and the round trips.
- `CsvExport`: the CSV handler.

Read every `Value -> string` parameter `show` as JavaScript's `String(v)` for
a value that is not a string. Database refusals are the `refuse` parameter:
the number of the first statement refused, counting BEGIN as 0. The fresh
`uuidv4()` is the `sid` parameter. The transaction's `NOW()` is the abstract
ordering key `now`, and the GeoJSON clock read is `generatedAt`.

## Model

| member | source | states |
|---|---|---|
| JsValues.Or | server.js:91-98 | the `or` operator gives `a` when `a` is truthy and `b` otherwise; the result is truthy exactly when one operand is |
| JsValues.Param | server.js:121-128 | an `undefined` query parameter is bound as NULL; any other value is bound unchanged |
| JsValues.Stringify | server.js:124 | `JSON.stringify` gives `undefined` exactly for `undefined`; otherwise a truthy JSON text of the value |
| JsValues.LengthOr0 | server.js:96-98 | the length read of an optional array is its length, or 0 when the array is absent |
| JsValues.Elements | server.js:105-106 | the loop visits the array's elements, none when it is absent; their number is `LengthOr0` |
| JsValues.Text | server.js:560 | `String(v)` of a string is the string itself |
| Schema.Append | server.js:199 | committing appends each table's new rows after its old ones; each table grows by exactly its new rows |
| Schema.AppendPolygons | server.js:121-127 | new polygon rows that name old or new submissions, with ids drawn in order, keep the polygon table free of orphans and its ids ordered |
| Schema.AppendClusters | server.js:153-154 | the same for cluster rows |
| Schema.AppendVoxels | server.js:183-184 | the same for voxel rows, which name old or new cluster rows |
| Schema.AppendConsistent | server.js:199 | committing rows that extend the database in this way keeps the whole database consistent |
| Schema.ConsistentAsSequencesAdvance | server.js:216 | a consistent state stays consistent when the sequences advance, as they do past a rolled-back transaction |
| Derivation.SubmissionRowOf | server.js:89-100 | the submission row carries the fresh id and the transaction's `created_at` |
| Derivation.SubmissionRowDefaults | server.js:89-100 | a falsy `userId` becomes `'anonymous'`, a falsy radius becomes 1000, a falsy lng or lat becomes NULL, the totals are the array lengths or 0, and `session_metadata` is NULL exactly when `sessionMetadata` is falsy |
| Derivation.PolygonRowOf | server.js:108-128 | a polygon fails with a TypeError exactly when it has no `center`; otherwise its row carries the submission id and the next SERIAL id |
| Derivation.ClusterRowOf | server.js:153-164 | a cluster fails with a TypeError exactly when it has no `centroid`; otherwise its row carries the submission id and the next id, and `voxel_count` is `voxels.length` or 0 |
| Derivation.VoxelRowOf | server.js:183-190 | a voxel row carries the id returned for its own cluster's row, and its own id |
| Derivation.PolygonRowDefaults | server.js:108-128 | `area_m2` is NULL exactly when `area` is falsy, `geometry_json` is NULL exactly when `geometry` is absent, and a one-element `center` stores a NULL latitude |
| Derivation.ClusterRowDefaults | server.js:153-164 | `ground_area_m2` defaults to NULL; `centroid_height` to 0, `tags` to `[]` and `comment` to `''` when falsy |
| Derivation.VoxelRowDefaults | server.js:183-190 | `height` and `height_meters` are equal, both the voxel's height, or 0 when that is falsy |
| Derivation.PolygonRows | server.js:105-131 | the polygon loop inserts one row per input polygon |
| Derivation.ClusterRows | server.js:134-197 | the cluster loop inserts one row per input cluster |
| Derivation.ClusterVoxelRows | server.js:172-195 | one cluster's voxel inserts make one row per voxel |
| Derivation.VoxelRows | server.js:134-197 | all the clusters' voxel rows together number the voxels of all the clusters |
| Derivation.StatsOf | server.js:205-210 | the response `stats` echo the input array lengths, defaulting to 0, and not any row count |
| Derivation.Advanced | server.js:150-166 | a commit only moves the SERIAL sequences forward |
| Derivation.PolygonRowsAt | server.js:121-128 | polygon row `k` is input polygon `k`'s row, with id `first + k` |
| Derivation.ClusterRowsAt | server.js:153-164 | cluster row `k` is input cluster `k`'s row, with id `first + k` |
| Derivation.ClusterVoxelRowsAt | server.js:183-190 | voxel row `k` of a cluster is its voxel `k`'s row, with id `first + k` |
| Derivation.VoxelTotalStep | server.js:172-173 | one more cluster adds its own voxels to the voxel total |
| Derivation.VoxelTotalMonotone | server.js:172-173 | the voxel total of a prefix of the clusters never exceeds that of a longer prefix |
| Derivation.VoxelRowsIds | server.js:183-190 | every voxel row references one of the transaction's cluster ids, and the voxel ids run on in order |
| Derivation.VoxelRowsAt | server.js:172-190 | voxel `j` of cluster `i` is at position `VoxelTotal(i) + j` and references cluster `i`'s id |
| Derivation.ClusterVoxelRowsReferences | server.js:184 | one cluster's voxel rows all reference that cluster and no other |
| Derivation.VoxelRowsReferenceNoLater | server.js:172-190 | no voxel row of the first `n` clusters references a later cluster's id |
| Derivation.VoxelRowsLastCluster | server.js:172-190 | the last cluster's id is referenced by exactly its own voxels |
| Derivation.VoxelRowsEarlierCluster | server.js:172-190 | a later cluster's voxels add no reference to an earlier cluster |
| Derivation.VoxelRowsPerCluster | server.js:166-190 | cluster `i`'s id is referenced by exactly as many voxel rows as it has voxels |
| Derivation.VoxelCountMatchesRows | server.js:157-190 | at ingestion, each cluster row's `voxel_count` equals the number of voxel rows that reference it |
| Derivation.DerivedExtends | server.js:105-197 | a submission adds one submission row and one row per polygon, cluster and voxel; every polygon and cluster row carries the new id; every voxel row names a cluster inserted with it |
| Derivation.CommitConsistent | server.js:199 | committing a submission keeps a consistent database consistent |
| Ingestion.CompletesStages | server.js:55-199 | the transaction commits exactly when BEGIN and the submission INSERT are accepted, every polygon and cluster is shaped and its statements accepted, and COMMIT is accepted |
| Ingestion.ClusterNotShaped | server.js:159 | one cluster without a `centroid` makes the clusters unshaped |
| Ingestion.ClusterTableStep | server.js:153-164 | after cluster `j`'s INSERT the clusters table holds the rows of the first `j + 1` clusters |
| Ingestion.VoxelTableStep | server.js:172-195 | after cluster `j`'s voxel INSERTs the voxels table holds the voxel rows of the first `j + 1` clusters |
| Ingestion.ClusterCountersStep | server.js:150-166 | after cluster `j` the sequences and the refusal range cover the first `j + 1` clusters |
| Ingestion.ClustersDoneStep | server.js:134-197 | inserting cluster `j` and its voxels turns the loop's state after `j` clusters into its state after `j + 1` |
| Ingestion.Store.Rollback | server.js:216 | ROLLBACK restores the tables as they were at BEGIN and leaves the sequences as they are |
| Ingestion.Store.InsertVoxels | server.js:172-195 | the voxel INSERTs fail exactly when one is refused; on success every voxel's row is appended, with consecutive ids |
| Ingestion.Store.InsertCluster | server.js:135-196 | a cluster fails exactly when it has no centroid or one of its statements is refused; on success its row and its voxels' rows are appended |
| Ingestion.Store.InsertNextCluster | server.js:135-196 | cluster `j` of the loop keeps the loop invariant on success; on failure the clusters do not all complete |
| Ingestion.Store.InsertClusters | server.js:134-197 | the cluster loop fails exactly when some cluster is unshaped or a statement is refused; on success it appends every cluster row and every voxel row |
| Ingestion.Store.InsertPolygons | server.js:105-131 | the polygon loop fails exactly when a polygon is unshaped or refused; on success it appends every polygon row |
| Ingestion.Store.Transaction | server.js:55-199 | BEGIN to COMMIT fails exactly when the submission does not complete; on success the tables are the old tables plus every derived row |
| Ingestion.Store.Submit | server.js:51-226 | 201 with the fresh id and the echoed stats exactly when the submission completes, with every derived row appended; otherwise 500 with the tables unchanged; consistency holds either way |
| Sorting.InsertBy | server.js:245 | inserting keeps the elements (as a multiset) and keeps a sorted sequence sorted |
| Sorting.SortBy | server.js:245 | ORDER BY returns a sorted permutation of its rows |
| Sorting.Take | server.js:246 | LIMIT `n` keeps the first `min(n, length)` rows, as a prefix |
| Sorting.SortByTied | server.js:307 | rows whose keys all tie keep their table order |
| Sorting.TakeSorted | server.js:245-246 | LIMIT after ORDER BY keeps a sorted prefix, and every row left out sorts after every row kept |
| Selection.Filter | server.js:282 | WHERE keeps exactly the rows that satisfy the condition |
| Selection.FilterConcat | server.js:282 | selecting from two tables' worth of rows is selecting from each |
| Selection.FilterAll | server.js:306 | when every row qualifies, nothing is removed |
| Selection.FilterNone | server.js:306 | when no row qualifies, nothing is selected |
| Selection.FilterFresh | server.js:306 | old rows none of which qualifies, followed by new rows all of which do, select the new rows |
| Selection.FilterSingle | server.js:282 | when exactly one row qualifies, that row is the selection |
| Queries.NewestFirstDescending | server.js:245 | rows sorted newest first have non-increasing `created_at` |
| Queries.LeftOutNotNewer | server.js:245-246 | no row that LIMIT leaves out is newer than a row it keeps |
| Queries.TakeSubMultiset | server.js:246 | LIMIT returns only rows of its input |
| Queries.ListSubmissions | server.js:229-254 | `count` is the number of rows, which is at most 100 and the total when fewer; rows are newest first, all from the table, and none left out is newer than any listed |
| Queries.Reshape | server.js:326-331 | a ground polygon's view takes `type` from `polygon_type`, `geometry` from `geometry_json`, `area` from `area_m2`, and `center` is the two-element array `[center_lng, center_lat]` |
| Queries.ClusterViews | server.js:293-305 | each selected cluster becomes its view of the selected columns, in the same order |
| Queries.PolygonViews | server.js:326-331 | each selected polygon is reshaped, in the same order |
| Queries.SubmissionMatches | server.js:268-283 | the submission query returns exactly the rows with the id, and nothing exactly when no row has it |
| Queries.ViewsOldestFirst | server.js:307 | clusters sorted by `created_at` give views with non-decreasing `created_at` |
| Queries.ViewsOfSubmission | server.js:293-308 | the views of a reordering of the submission's clusters are the views of exactly its clusters, each appearing as many times as there are rows for it |
| Queries.SubmissionClusters | server.js:293-308 | the clusters of the lookup are oldest first, one view per cluster row of the submission: the same multiset of views as the selected rows give |
| Queries.SubmissionPolygons | server.js:311-331 | the polygons of the lookup are the reshaped rows of exactly the submission's polygons, one per polygon row: the same multiset of views as the selected rows give |
| Queries.GetSubmission | server.js:264-340 | not-found exactly when no submission has the id; otherwise a submission with the id, its clusters oldest first and its reshaped polygons, one entry per cluster and polygon row |
| Queries.DerivedClusters | server.js:153-164 | every cluster row of a transaction matches its submission id and carries its `created_at` |
| Queries.DerivedPolygons | server.js:121-128 | every polygon row of a transaction matches its submission id |
| Queries.AbsentIdSelectsNothing | server.js:282-290 | on a consistent database an id that no submission has selects no submission, cluster or polygon |
| Queries.ClustersReadBack | server.js:293-308 | after a commit the clusters query returns the new submission's clusters in the model's table order |
| Queries.PolygonsReadBack | server.js:311-320 | after a commit the polygons query returns the new submission's polygons in the model's table order |
| Queries.SubmissionReadBack | server.js:268-283 | after a commit the submission query returns exactly the new row |
| Queries.PostThenGet | server.js:264-333 | reading a just-committed submission returns its row, its clusters and its polygons |
| Joins.PairCluster | server.js:366-367 | a cluster joins each matching submission once |
| Joins.PairVoxel | server.js:390-392 | a voxel joins each matching cluster-submission pair once |
| Joins.PairPolygon | server.js:410-411 | a polygon joins each matching submission once |
| Joins.ClusterJoinsMembers | server.js:366-367 | a pair is in the cluster join exactly when both rows exist and their submission ids match |
| Joins.PolygonJoinsMembers | server.js:410-411 | a pair is in the polygon join exactly when both rows exist and their submission ids match |
| Joins.VoxelJoinsMembers | server.js:390-392 | a triple is in the voxel join exactly when the three rows exist and both of its ON conditions hold |
| Joins.OneSubmissionWithId | server.js:367 | an id that is present in a table of unique ids matches exactly one row |
| Joins.OneClusterWithDbId | server.js:391 | a cluster id that is present in a table of increasing ids matches exactly one row |
| Joins.ClusterJoinsCount | server.js:366-367 | with unique submission ids and no orphans, the cluster join has one row per cluster |
| Joins.PolygonJoinsCount | server.js:410-411 | with unique submission ids and no orphans, the polygon join has one row per polygon |
| Joins.VoxelJoinsCount | server.js:390-392 | with unique ids and no orphans, the voxel join has one row per voxel |
| Joins.ExportedClusters | server.js:346-369 | the cluster query returns the join's rows, sorted by submission `created_at` descending and then cluster id |
| Joins.ExportedVoxels | server.js:372-394 | the voxel query returns the join's rows, sorted by submission `created_at` descending and then voxel id |
| Joins.ExportedPolygons | server.js:397-413 | the polygon query returns the join's rows, sorted by submission `created_at` descending and then polygon id |
| Joins.ExportedCounts | server.js:346-413 | on a consistent database with unique ids, each export query has one row per table row |
| GeoJson.ClusterFeature | server.js:419-444 | a cluster's feature is tagged `cluster_centroid` and carries the cluster's database id and submission id |
| GeoJson.VoxelFeature | server.js:449-472 | a voxel's feature is tagged `voxel` and carries the voxel's id and its cluster's id |
| GeoJson.PolygonFeature | server.js:477-494 | a polygon's feature is tagged `ground_polygon` and carries the polygon's id and submission id |
| GeoJson.ClusterFeatures | server.js:418-445 | the cluster loop pushes one feature per row |
| GeoJson.VoxelFeatures | server.js:448-473 | the voxel loop pushes one feature per row |
| GeoJson.PolygonFeatures | server.js:476-495 | the polygon loop pushes one feature per row |
| GeoJson.ClusterFeaturesAt | server.js:418-445 | feature `k` of the cluster run is row `k`'s feature |
| GeoJson.VoxelFeaturesAt | server.js:448-473 | feature `k` of the voxel run is row `k`'s feature |
| GeoJson.PolygonFeaturesAt | server.js:476-495 | feature `k` of the polygon run is row `k`'s feature |
| GeoJson.FeatureRuns | server.js:415-495 | the three runs together place each row's feature at its own offset |
| GeoJson.CollectionLayout | server.js:501-511 | the features are all cluster features, then all voxel features, then all polygon features, each in query order; each subtotal is its query's row count, and `total_features` is their sum |
| GeoJson.TotalsAreTableSizes | server.js:503-508 | on a consistent database with unique ids, the totals are the table sizes |
| GeoJson.PushClusterFeatures | server.js:418-445 | the first `forEach` appends the cluster run to `features` |
| GeoJson.PushVoxelFeatures | server.js:448-473 | the second `forEach` appends the voxel run |
| GeoJson.PushPolygonFeatures | server.js:476-495 | the third `forEach` appends the polygon run |
| GeoJson.ExportGeoJson | server.js:343-512 | the handler's three loops and its response give exactly the collection of clusters, then voxels, then polygons, with its totals |
| CsvFormat.Join | server.js:553 | joining nothing gives `""`, and joining one part gives that part |
| CsvFormat.JoinSnoc | server.js:553 | one more part is joined after the separator, or alone when nothing precedes it |
| CsvFormat.DoubleQuotes | server.js:562 | doubling quotes never shortens the text, and leaves a text without quotes unchanged |
| CsvFormat.Escape | server.js:561-564 | a field without `,`, `"` or a line break is unchanged; any other field is written between quotes |
| CsvFormat.EscapeAll | server.js:556-565 | each field of a line is escaped on its own |
| CsvFormat.QuotedRoundTrip | server.js:562 | reading a quote-doubled text back, up to its closing quote, gives the original text |
| CsvFormat.BareRoundTrip | server.js:564 | an unquoted field without a comma or a line break reads back as itself |
| CsvFormat.FieldRoundTrip | server.js:558-564 | unquoting an escaped field gives the original string, whatever it holds |
| CsvFormat.RecordRoundTrip | server.js:566 | reading back a written line gives its fields and the text after the line |
| CsvFormat.DocumentRoundTrip | server.js:566 | a written line in front of readable text reads as one more record |
| CsvExport.Find | server.js:557 | the first index of a pattern: none when the pattern does not occur, otherwise an occurrence with none before it |
| CsvExport.SessionKey | server.js:557 | a header that starts with `session_` is first looked up as `user_` plus the rest of its name |
| CsvExport.PlainKey | server.js:557 | a header that lacks one of the characters of `session_` is looked up under its own name |
| CsvExport.SessionKeys | server.js:557 | `session_timestamp`, `session_lng` and `session_lat` are first looked up as `user_timestamp`, `user_lng` and `user_lat` |
| CsvExport.PlainKeys | server.js:557 | the other twelve headers are looked up under their own names |
| CsvExport.PlainLookup | server.js:557 | each of those twelve headers reads its own column, whatever its value |
| CsvExport.SessionLookup | server.js:557 | a `session_` header reads its `user_` column when that is truthy, and its own column otherwise |
| CsvExport.LookupColumn | server.js:549-557 | for every header, the rename gives the first column listed for it, and the lookup is that column or else the header's own column |
| CsvExport.FieldText | server.js:559-560 | null and undefined give `''`; a string gives itself |
| CsvExport.Cell | server.js:558-564 | a field is blank for null or undefined, and otherwise the value's text, escaped |
| CsvExport.Values | server.js:556-565 | a line has 15 fields; field `k` is the escaped text of header `k`'s lookup |
| CsvExport.Texts | server.js:556-565 | the 15 field texts of a row, field `k` from header `k`'s lookup |
| CsvExport.TextsColumns | server.js:556-565 | field `k`'s text is the text of the column that header `k` reads |
| CsvExport.ValuesEscaped | server.js:556-565 | the written fields are the field texts, each escaped |
| CsvExport.HeaderLineEscaped | server.js:549-553 | no header needs quoting, so the header line reads back as the 15 names |
| CsvExport.ElementTexts | server.js:540 | the texts of exactly the array's non-null elements, in array order |
| CsvExport.ElementTextsConcat | server.js:540 | the texts of two concatenated arrays are the texts of the first followed by those of the second |
| CsvExport.ArrayToString | server.js:540 | NULL for a tags value that is not an array, a string otherwise: empty when no element is non-null, the one element's text when there is exactly one |
| CsvExport.ArrayToStringSnoc | server.js:540 | one more element: a NULL adds nothing, the first non-null element is written alone, a later one after `"; "` |
| CsvExport.CsvRows | server.js:526-546 | the query has one row per exported cluster-submission pair, in the export order |
| CsvExport.IdentityColumns | server.js:528-529 | fields 0 and 1 are the submission's id and its user |
| CsvExport.SessionColumns | server.js:549-557 | `session_timestamp` reads its own column; `session_lng` and `session_lat` read `user_lng` and `user_lat` when those are truthy, and are undefined otherwise |
| CsvExport.ClusterColumns | server.js:533-536 | fields 5 to 8 are the cluster's id, type, voxel count and ground area |
| CsvExport.CentroidColumns | server.js:537-539 | fields 9 to 11 are the centroid's longitude, latitude and height |
| CsvExport.DetailColumns | server.js:540-542 | fields 12 to 14 are the joined tags, the comment and `created_at` |
| CsvExport.TextTable | server.js:555-567 | one record of field texts per row, in row order |
| CsvExport.AppendLines | server.js:555-567 | the `forEach` appends exactly one line per row, in row order |
| CsvExport.ExportCsv | server.js:524-571 | the body is the header line followed by one line per exported cluster |
| CsvExport.RowReadBack | server.js:566 | a row's line reads back as the row's 15 field texts |
| CsvExport.LinesReadBack | server.js:555-567 | the lines of the first `n` rows read back as those rows' field texts, in order |
| CsvExport.CsvReadBack | server.js:553-567 | the whole body reads back as the 15 header names, then exactly each row's field texts: quoting loses and alters nothing |
| CsvExport.ExportedRecords | server.js:526-567 | the records read back after the headers are one per exported cluster, and field `k` is the text of the column header `k` reads |

## Left out

- `emergency_fix.py` is not part of this model. It is a one-off script that patches an HTML file with fixed string replacements.
- Express routing, CORS, JSON body parsing, console logging, the startup banner, SIGTERM handling and the health check are infrastructure around the logic.
- Response headers (`Content-Type`, `Content-Disposition`) are not modelled; responses are result values.
- The connection pool and `client.release()` are not modelled.
- The read and export handlers' 500 responses are not modelled: the tables are in memory, so a SELECT cannot fail. The ingestion handler's failures are modelled through the `refuse` parameter.
- ROLLBACK after a refused BEGIN, and a failing ROLLBACK, are not modelled. The model ends with the tables unchanged, which is what the database shows.
- The voxel INSERTs issued together through `Promise.all` run one at a time in array order. That fixes the order in which voxel ids are drawn. It also means that no voxel INSERT runs after a refused one. ROLLBACK discards those rows either way.
- The table definitions are not in the source. The model takes SERIAL ids, `created_at` defaulting to `NOW()`, and no constraints beyond those the source relies on. All rows of one transaction share one `now`.
- ORDER BY leaves the order of tied rows open. The model keeps tied rows in table order, which is one order the database may return.
- Queries.GetSubmission: it states that the submission returned has the id, not that it is the first such row. The query has no ORDER BY, so "first" is not a property of the source.
- Queries.SubmissionPolygons: it states which polygons are returned, not their order. The query has no ORDER BY.
- Requests are modelled one at a time. In the source each POST takes its own pool client, so concurrent submissions interleave their statements and their SERIAL draws. The consecutive ids of one transaction (`first + k` in the polygon, cluster and voxel rows) and ids increasing in table order are facts of the model, not of concurrent service. Atomicity and each voxel referencing its own cluster hold either way.
- Bodies whose array fields hold a JSON `null` element, and array fields holding a non-array value, are outside the payload types. In the source a `null` polygon, cluster or voxel element throws a TypeError (at `polygon.area`, `cluster.id`, or `voxel.key` inside the `map`). That leads to ROLLBACK and a 500, the same outcome the model gives a polygon without `center` or a cluster without `centroid`. A string in an array field would be counted by its characters (`dislikedVoxels?.length`) and iterated character by character. A non-iterable object in such a field would throw at `for…of`.
- Submit does not require the fresh id to be unused. The `uuidv4` collision-freedom is a requirement only of the read-back lemmas.
- Timestamps are opaque: `new Date(x)` is the value `DateOf(x)`, and `toISOString()` is the `generatedAt` parameter.
- `JSON.stringify` is the opaque value `Serialized(v)`.
- JavaScript's `String(v)` for numbers, booleans, dates and objects is the parameter `show`.
- Floating-point values are exact reals. The service never computes with them; it only tests their truthiness and stores them.
- The SELECT renames (`user_lng as lng` and so on) are not modelled: the views keep the row's own column values.
- `array_to_string(tags, '; ')` is modelled as a join of the non-null elements. A `tags` value that is not an array reads as NULL; the array column cannot hold one.
- The CSV reader belongs to the model. It exists to state the round trip; the service has no reader.
- A field that contains a carriage return but no `,`, `"` or `\n` is not quoted, as in the source, and so does not round-trip through a reader that treats CRLF as a line break. The model's reader ends a record at `\n` only.
