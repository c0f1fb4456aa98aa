# Zoning scraper: verified model of its data transformations

The repository consists of three command-line scripts for the Moscow-region
geoportal (rgis.mosreg.ru):

- `scraper.py` pages through the territorial-zone register in a browser. It
  collects the raw rows of every page and turns each row into a record with
  English field names.
- `geometry_fetcher.py` reads a list of records carrying `geometry_id`,
  `zone_code` and `municipality`, and looks up the geometry of every
  `geometry_id` concurrently. (The scraper's records carry the id as
  `card_id`, and no script here renames it.) It joins the geometries with each
  record's `zone_code` and `municipality` into a GeoJSON FeatureCollection and
  reports how many lookups succeeded.
- `flatten_geojson.py` rewrites a FeatureCollection. A feature whose geometry
  is itself a FeatureCollection is replaced by the features nested in it, each
  carrying the outer properties overlaid by its own.

This Dafny project models the sequential logic of these scripts over decoded
JSON values. It proves what their loops compute.

Files:

- `json_values.dfy` (module `JsonValues`) defines the shared pieces:
  - the JSON value type;
  - Python truthiness and `dict.get`;
  - sequence helpers, among them `Concat`, the fold behind every
    "extend a list in a loop".
- `geometry_fetcher.dfy` (module `GeometryFetcher`) models:
  - the `geometry_ids` comprehension;
  - the loop that builds `properties_map` (last writer wins);
  - the classification of one HTTP reply;
  - the `process_batch` loops;
  - the None filter;
  - the `create_geojson` loop;
  - `fetch_all_geometries` as a whole.
- `scraper.dfy` (module `Scraper`) models the page loop of
  `fetch_data_with_browser` and the `process_data` loop.
- `flatten_geojson.dfy` (module `FlattenGeoJson`) models the nested loop of
  `flatten_geojson`.

Every loop of the scripts is a Dafny `method` with loop invariants. Each is
proved equal to a specification function (`PropertiesOf`, `Gather`,
`Harvested`, `FlattenAll`, …) or to a predicate (`Assembles`). Lemmas state
what the scripts promise about those functions.

External inputs become parameters:

- The network is the reply each task receives (`Reply`: a status and a
  decoded body, or an exception) and the order in which `as_completed` yields
  its tasks (`order`, a permutation of task indices).
- The browser is what each page yields (`PageOutcome`: the decoded rows, or a
  failure).
- Python's `None` is `JNull`.

The scripts behave as follows in points a reader might expect otherwise:

- Pages are fetched by one sequential loop over one browser; there is no
  partitioning of page ranges across workers.
- The output collection has only `type` and `features`, with no count
  metadata.
- A reply without a geometry ("not found") and a failed request both give
  `None` and are filtered alike; no failure count is kept. geometry_fetcher.py line 86 prints only
  the number of fetched geometries and the number of listed ids.
- The join is per distinct geometry id, not per record: records with the same
  id give one feature, using the last record's properties.
- The gathered dict is the same for every completion order when all tasks for
  the same id yield the same geometry (`GatherOrderIndependent`); a 404 and an
  exception both yield None. When two tasks for a duplicated id yield different
  geometries, the last arrival wins (`GatherLastArrival`).

## Model

| member | source | states |
|---|---|---|
| GeometryFetcher.GeometryIds | geometry_fetcher.py:66 | the list of ids is never longer than the input, and every entry is truthy |
| GeometryFetcher.GeometryIdsAppend | geometry_fetcher.py:66 | the comprehension over two concatenated inputs is the concatenation of the two lists, so input order is kept |
| GeometryFetcher.GeometryIdsMembers | geometry_fetcher.py:66 | a value is listed exactly when it is truthy and some record's `geometry_id` equals it (both directions) |
| GeometryFetcher.PropertiesOfKeys | geometry_fetcher.py:58-64 | the table has a key for exactly the listed ids, and every entry holds only `zone_code` and `municipality` |
| GeometryFetcher.PropertiesOfLastWriter | geometry_fetcher.py:58-64 | the entry for an id comes from the last record carrying that id |
| GeometryFetcher.BuildPropertiesMap | geometry_fetcher.py:58-64 | the loop's dict equals the last-writer-wins table `PropertiesOf` of the records |
| GeometryFetcher.FetchGeometry | geometry_fetcher.py:12-31 | the id passed in always comes back; the geometry is non-null exactly when the status is 200, the body decodes to a dict, and its `geometry` is present and not null, and then it is that value; every other path, exceptions included, gives null |
| GeometryFetcher.SubmittedMembers | geometry_fetcher.py:39-43 | an id gets a task exactly when it is in the list and truthy: no task for a falsy id |
| GeometryFetcher.SubmittedAllTruthy | geometry_fetcher.py:39-43 | a list of truthy ids gets one task per entry, in list order |
| GeometryFetcher.ListedIdsSubmitted | geometry_fetcher.py:40-43 | every id of `geometry_ids` gets its own task and is a valid dict key |
| GeometryFetcher.GatherKeys | geometry_fetcher.py:45-48 | the results dict has as keys exactly the ids of all arrived tasks |
| GeometryFetcher.GatherCompleteKeys | geometry_fetcher.py:45-48 | once every task has arrived, in any order, the keys are exactly the distinct submitted ids, so duplicates collapse to one key |
| GeometryFetcher.GatherLastArrival | geometry_fetcher.py:46-48 | the value kept for an id is the one produced by its last-arriving task |
| GeometryFetcher.GatherValueConsistent | geometry_fetcher.py:46-48 | when every task for the same id yields the same geometry or None, an id's value is what any of its tasks yields |
| GeometryFetcher.GatherOrderIndependent | geometry_fetcher.py:45-48 | when every task for the same id yields the same geometry or None (replies may differ, as a 404 and an exception both yield None), any two completion orders give the same results dict |
| GeometryFetcher.DifferentFailuresAgree | geometry_fetcher.py:25-31 | a duplicated id answered by a 404 and by an exception yields None both times, so the two completion orders give the same dict |
| GeometryFetcher.GatherFailureIsolated | geometry_fetcher.py:29-48 | making one task raise changes neither the presence nor the value of any other id |
| GeometryFetcher.ProcessBatch | geometry_fetcher.py:34-51 | the two loops give the gathered dict of the truthy ids in the given completion order, and its keys are exactly the truthy ids |
| GeometryFetcher.DropNone | geometry_fetcher.py:79 | the filtered dict keeps exactly the entries whose value is not null, unchanged |
| GeometryFetcher.FetchedBounds | geometry_fetcher.py:79-86 | after the filter, no value is null, every key is a listed id, and the success count is at most `len(geometry_ids)` |
| GeometryFetcher.FetchedExactly | geometry_fetcher.py:74-79 | an id survives the filter exactly when its last-arriving reply carried a geometry, and then it maps to that geometry |
| GeometryFetcher.FetchedOfBatch | geometry_fetcher.py:69-79 | copying the batch into `geometries` and filtering it gives `Fetched`, with at most one entry per listed id |
| GeometryFetcher.FeatureForFields | geometry_fetcher.py:94-104 | a feature has keys `type`, `properties` and `geometry`; its type is "Feature"; its properties hold the id plus `zone_code` and `municipality` from the table, or null when the id is not in the table; its geometry is the mapped value |
| GeometryFetcher.CreateGeoJson | geometry_fetcher.py:90-112 | the document has only the keys `type` ("FeatureCollection") and `features`; there is exactly one feature per entry, each built from its own entry, with no id repeated and every entry covered |
| GeometryFetcher.AssemblyUniqueUpToOrder | geometry_fetcher.py:90-112 | two documents assembled from the same entries have the same type and the same features, up to order |
| GeometryFetcher.AssembledSingle | geometry_fetcher.py:90-112 | a single entry gives a document whose only feature is the one built from that entry |
| GeometryFetcher.FetchAllGeometries | geometry_fetcher.py:54-86 | the document assembles the filtered geometries with the properties table of the records; the reported counts are the number fetched and the number of ids, the former never larger |
| GeometryFetcher.OneOfTwoFetched | geometry_fetcher.py:54-86 | records A and B, A's lookup succeeding and B's raising: in either completion order only A is fetched, 1 of 2, A's properties are both zone fields null, and the document holds exactly A's feature |
| Scraper.HarvestedAt | scraper.py:38-48 | each page's rows appear at that page's place, after the rows of all earlier pages and before those of later ones |
| Scraper.HarvestedFailedPage | scraper.py:43-50 | a failed page adds nothing and the pages after it still contribute |
| Scraper.HarvestedLength | scraper.py:48 | the number of rows collected is the sum of the successful pages' row counts |
| Scraper.FetchDataWithBrowser | scraper.py:38-50 | the loop visits pages 1..max_pages in ascending order and collects the concatenation of the successful pages' rows; with max_pages < 1 no page is visited and the result is empty |
| Scraper.ProcessRowFields | scraper.py:67-81 | a record has exactly eight keys: the English name of header i maps to `columns[i]` (i < 6), `original_columns` to the whole value, and `card_id` to `meta["card"]` when `meta` is a dict holding "card", null otherwise; for a list `columns` cell i is `columns[i]`, for a string its i-th character |
| Scraper.ProcessData | scraper.py:61-85 | the output has the input's length and order, with record i built from row i |
| FlattenGeoJson.ExpandAllAt | flatten_geojson.py:23-31 | the nested features come out once each and in order, each expanded |
| FlattenGeoJson.ExpandKeepsFields | flatten_geojson.py:24-30 | an expanded feature keeps every field of the nested one and adds or replaces only `properties` |
| FlattenGeoJson.ExpandProperties | flatten_geojson.py:26-30 | the merged properties have as keys the union of the outer and nested keys; the nested value wins a collision; when the nested properties are absent or empty, the result equals the outer properties |
| FlattenGeoJson.ExpandIsOneLevel | flatten_geojson.py:23-31 | a nested feature whose own geometry is a FeatureCollection is emitted with that geometry and is not expanded further |
| FlattenGeoJson.FlattenAllAt | flatten_geojson.py:18-34 | each input feature's output sits at its own position between its neighbours' outputs; a regular feature is passed through unchanged |
| FlattenGeoJson.FlattenAllCount | flatten_geojson.py:18-34 | the number of output features is the sum, over the input features, of the nested count for a nested feature and 1 for any other |
| FlattenGeoJson.FlattenAllShallow | flatten_geojson.py:18-34 | if no nested feature of a nested input feature is itself nested (regular features are unconstrained), no output feature has a FeatureCollection geometry |
| FlattenGeoJson.FlattenShallowIdentity | flatten_geojson.py:32-34 | features none of which is nested come out unchanged |
| FlattenGeoJson.FlattenIdempotentOneLevel | flatten_geojson.py:18-34 | under the same hypothesis (no nested feature of a nested input feature is itself nested), flattening the output again changes nothing |
| FlattenGeoJson.RegularWithFeaturesList | flatten_geojson.py:18-34 | a regular feature whose Polygon geometry carries a `features` list meets that hypothesis, is passed through unchanged, and flattening it twice equals once |
| FlattenGeoJson.Flatten | flatten_geojson.py:9-34 | input whose `type` is not "FeatureCollection" produces no document; otherwise the document is the FeatureCollection of the flattened features, in order |
| FlattenGeoJson.CollectionShape | flatten_geojson.py:13-34 | the output has only the keys `type` and `features`; its type is "FeatureCollection"; its feature count is the regular features plus the nested ones |
| FlattenGeoJson.FlattenOneNested | flatten_geojson.py:19-31 | a nested feature holding three features becomes their three expansions, in order |
| FlattenGeoJson.ThreeNestedExample | flatten_geojson.py:18-31 | a feature with two outer properties and three nested features gives three features, each with the outer properties plus its own, its own value winning on a shared key |

## Left out

- Python-level checks at the start of the scripts are not modelled. This covers argparse and `sys.argv` handling and the `--concurrent < 1` guard. The concurrency limit itself only bounds the semaphore, and the semaphore does not change any result.
- aiohttp sessions, URL building, the `asyncio.Semaphore` and `tqdm.as_completed` scheduling are network and concurrency machinery. Their effect shows in the model only as the per-task `replies` and the completion `order`.
- The SeleniumBase browser is not modelled: opening it, waiting for the authentication page, navigating and quitting are external and stateful. Each page is an abstract `PageOutcome`.
- Reading and writing files is not modelled. Neither is `json.load`, `json.dump` or its `ensure_ascii` and `indent` formatting. JSON object key order is not modelled either; objects are maps.
- `time.time()` duration reporting is left out: it reads the clock and computes floats. The model has no floating-point numbers; JSON numbers are integers.
- All printing and progress bars are left out. This includes flatten_geojson.py's summary line, which reads `data['features']` and raises KeyError after the output file has been written when the input has no `features` key.
- GeometryFetcher.CreateGeoJson: feature order is Python's dict insertion order, which here is the first arrival of each id. The model allows any order and states the result up to order (`AssemblyUniqueUpToOrder`).
- GeometryFetcher.BuildPropertiesMap, GeometryFetcher.ProcessBatch and GeometryFetcher.FetchAllGeometries require truthy ids to be strings or integers. Python raises TypeError for a list or dict id, and `True == 1` would merge a boolean id with an integer one. Neither case is modelled.
- GeometryFetcher: `data` is a list of dicts (`Item`); any other record raises AttributeError at line 60 and is not modelled.
- GeometryFetcher.FetchAllGeometries takes one reply per listed id and a completion order that yields every task once. These describe the inputs and are not demands of the source.
- Scraper.FetchDataWithBrowser: an exception from `browser.get` (line 41, outside the `try`) ends the whole run. The model covers only failures inside the `try` (lines 43-50), which are caught per page. A page whose decoded JSON is not a list (`extend` with a dict's keys or a string's characters) is not modelled.
- Scraper.ProcessData requires every row to be a dict with a `columns` list or string of at least six elements, and a `meta` that is a dict, a list without "card" or a string not containing "card". On every other row Python raises, and exceptions are not modelled.
- FlattenGeoJson.Flatten requires well-formed input; exceptions are not modelled. Well-formed means:
  - the document and every feature are dicts;
  - every geometry that is present is a dict;
  - the `features` looped over are a list, `{}` or `""` (the last two give no iterations), and so are a nested feature's nested features;
  - a nested feature with at least one nested feature has dict properties;
  - the nested features are dicts whose truthy properties are dicts.
- FlattenGeoJson.Flatten: the precondition also excludes two kinds of input that Python accepts. Outer properties that are a list, when no nested properties are truthy (`list.copy()` succeeds and the list becomes each output's properties). Truthy nested properties given as a list of key-value pairs, which `dict.update` accepts.
