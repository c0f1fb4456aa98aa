/** The bookkeeping of geometry_fetcher.py: which records are looked up, the
    per-id properties table, the classification of one HTTP reply, the
    gathering of per-id results in completion order, the None filter and the
    assembly of the GeoJSON FeatureCollection.

    The network is not modelled: the reply the endpoint gives to each submitted
    task is an input (`replies`), and so is the order in which tasks complete
    (`order`, a permutation of task indices). */
module GeometryFetcher {
  import opened JsonValues

  type Item = map<string, Json>
  type Props = map<string, Json>

  // ---------------------------------------------------------------------------
  // Selecting ids (line 66) and the properties table (lines 58-64)
  // ---------------------------------------------------------------------------

  /** `item.get('geometry_id')` */
  function IdOf(item: Item): Json {
    Get(item, "geometry_id")
  }

  /** Python raises TypeError when a truthy geometry_id cannot serve as a dict key. */
  predicate HashableIds(data: seq<Item>) {
    forall i :: 0 <= i < |data| && Truthy(IdOf(data[i])) ==> IsKey(IdOf(data[i]))
  }

  /** The `geometry_ids` list comprehension: the truthy ids, in input order. */
  function GeometryIds(data: seq<Item>): (ids: seq<Json>)
    ensures |ids| <= |data|
    ensures forall k :: 0 <= k < |ids| ==> Truthy(ids[k])
  {
    if data == [] then []
    else (if Truthy(IdOf(data[0])) then [IdOf(data[0])] else []) + GeometryIds(data[1..])
  }

  /** The comprehension distributes over concatenation, so it keeps input order. */
  lemma {:induction false} GeometryIdsAppend(a: seq<Item>, b: seq<Item>)
    ensures GeometryIds(a + b) == GeometryIds(a) + GeometryIds(b)
  {
    if a == [] {
      assert a + b == b;
    } else {
      assert (a + b)[0] == a[0];
      assert (a + b)[1..] == a[1..] + b;
      GeometryIdsAppend(a[1..], b);
    }
  }

  /** An id is listed exactly when it is truthy and some record carries it. */
  lemma {:induction false} GeometryIdsMembers(data: seq<Item>, x: Json)
    ensures x in GeometryIds(data) <==> Truthy(x) && exists i :: 0 <= i < |data| && IdOf(data[i]) == x
  {
    if data != [] {
      GeometryIdsMembers(data[1..], x);
      if exists i :: 0 <= i < |data[1..]| && IdOf(data[1..][i]) == x {
        var i :| 0 <= i < |data[1..]| && IdOf(data[1..][i]) == x;
        assert IdOf(data[i + 1]) == x;
      }
      if exists i :: 0 <= i < |data| && IdOf(data[i]) == x {
        var i :| 0 <= i < |data| && IdOf(data[i]) == x;
        if i > 0 {
          assert IdOf(data[1..][i - 1]) == x;
        }
      }
    }
  }

  /** The two entries every table value holds (lines 61-64). */
  function ZoneProps(item: Item): Props {
    map["zone_code" := Get(item, "zone_code"), "municipality" := Get(item, "municipality")]
  }

  /** `properties_map` after the loop has seen all of `data`: later records overwrite earlier ones. */
  function PropertiesOf(data: seq<Item>): map<Json, Props> {
    if data == [] then map[]
    else
      var last := data[|data| - 1];
      var before := PropertiesOf(data[..|data| - 1]);
      if Truthy(IdOf(last)) then before[IdOf(last) := ZoneProps(last)] else before
  }

  /** The table has a key for exactly the listed ids, and every entry holds just the two fields. */
  lemma {:induction false} PropertiesOfKeys(data: seq<Item>)
    ensures forall x :: x in PropertiesOf(data) <==> x in GeometryIds(data)
    ensures forall x :: x in PropertiesOf(data) ==> PropertiesOf(data)[x].Keys == {"zone_code", "municipality"}
  {
    if data != [] {
      var init, last := data[..|data| - 1], data[|data| - 1];
      PropertiesOfKeys(init);
      assert data == init + [last];
      GeometryIdsAppend(init, [last]);
      assert [last][1..] == [];
    }
  }

  /** Last writer wins: the entry for an id comes from the last record carrying it. */
  lemma {:induction false} PropertiesOfLastWriter(data: seq<Item>, j: int)
    requires 0 <= j < |data| && Truthy(IdOf(data[j]))
    requires forall j' :: j < j' < |data| ==> IdOf(data[j']) != IdOf(data[j])
    ensures IdOf(data[j]) in PropertiesOf(data)
    ensures PropertiesOf(data)[IdOf(data[j])] == ZoneProps(data[j])
  {
    var init := data[..|data| - 1];
    if j < |data| - 1 {
      assert data[j] == init[j];
      PropertiesOfLastWriter(init, j);
    }
  }

  /** The loop of lines 58-64. */
  method BuildPropertiesMap(data: seq<Item>) returns (propertiesMap: map<Json, Props>)
    requires HashableIds(data)
    ensures propertiesMap == PropertiesOf(data)
  {
    propertiesMap := map[];
    for i := 0 to |data|
      invariant propertiesMap == PropertiesOf(data[..i])
    {
      assert data[..i + 1][..i] == data[..i];
      var item := data[i];
      if Truthy(IdOf(item)) {
        propertiesMap := propertiesMap[IdOf(item) := ZoneProps(item)];
      }
    }
    assert data[..|data|] == data;
  }

  // ---------------------------------------------------------------------------
  // One reply (lines 18-31)
  // ---------------------------------------------------------------------------

  /** What `session.get(url)` gives back: a status and the body as `response.json()`
      decodes it (None when decoding raises), or an exception raised by the request. */
  datatype Reply = Response(status: int, body: Option<Json>) | Raised

  /** `fetch_geometry`: the id paired with the geometry, where JNull stands for Python's None. */
  function FetchGeometry(id: Json, reply: Reply): (r: (Json, Json))
    ensures r.0 == id
    ensures r.1 != JNull <==>
      && reply.Response? && reply.status == 200
      && reply.body.Some? && reply.body.value.JObj?
      && "geometry" in reply.body.value.fields && reply.body.value.fields["geometry"] != JNull
    ensures r.1 != JNull ==> r.1 == reply.body.value.fields["geometry"]
  {
    match reply
    case Raised => (id, JNull)
    case Response(status, body) =>
      if status != 200 then (id, JNull)
      else
        match body
        case None => (id, JNull)
        case Some(JObj(data)) => if "geometry" in data then (id, data["geometry"]) else (id, JNull)
        // a non-dict body gives None, at line 25 or through the TypeError caught at line 29
        case Some(_) => (id, JNull)
  }

  // ---------------------------------------------------------------------------
  // Gathering the batch (lines 39-51)
  // ---------------------------------------------------------------------------

  /** The ids a task is created for (lines 39-43): falsy ids get none. */
  function Submitted(ids: seq<Json>): seq<Json> {
    if ids == [] then []
    else Submitted(ids[..|ids| - 1]) + (if Truthy(ids[|ids| - 1]) then [ids[|ids| - 1]] else [])
  }

  lemma {:induction false} SubmittedMembers(ids: seq<Json>, x: Json)
    ensures x in Submitted(ids) <==> x in ids && Truthy(x)
  {
    if ids != [] {
      var init := ids[..|ids| - 1];
      SubmittedMembers(init, x);
      assert ids == init + [ids[|ids| - 1]];
    }
  }

  /** Ids that are all truthy (as `geometry_ids` is) each get their own task. */
  lemma {:induction false} SubmittedAllTruthy(ids: seq<Json>)
    requires forall k :: 0 <= k < |ids| ==> Truthy(ids[k])
    ensures Submitted(ids) == ids
  {
    if ids != [] {
      SubmittedAllTruthy(ids[..|ids| - 1]);
    }
  }

  /** `as_completed` yields every task exactly once, in some order. */
  predicate IsCompletionOrder(order: seq<int>, n: int) {
    && |order| == n
    && (forall k :: 0 <= k < |order| ==> 0 <= order[k] < n)
    && (forall t :: 0 <= t < n ==> t in order)
  }

  /** `results` after all tasks finished in the order given: each arrival writes its key. */
  function Gather(tasks: seq<Json>, replies: seq<Reply>, order: seq<int>): map<Json, Json>
    requires |replies| == |tasks|
    requires forall k :: 0 <= k < |order| ==> 0 <= order[k] < |tasks|
  {
    if order == [] then map[]
    else
      var t := order[|order| - 1];
      var (id, geometry) := FetchGeometry(tasks[t], replies[t]);
      Gather(tasks, replies, order[..|order| - 1])[id := geometry]
  }

  /** The keys are the ids of all arrived tasks. */
  lemma {:induction false} GatherKeys(tasks: seq<Json>, replies: seq<Reply>, order: seq<int>)
    requires |replies| == |tasks|
    requires forall k :: 0 <= k < |order| ==> 0 <= order[k] < |tasks|
    ensures Gather(tasks, replies, order).Keys == set k | 0 <= k < |order| :: tasks[order[k]]
  {
    if order != [] {
      var init := order[..|order| - 1];
      GatherKeys(tasks, replies, init);
      var before := set k | 0 <= k < |init| :: tasks[init[k]];
      var after := set k | 0 <= k < |order| :: tasks[order[k]];
      assert after == before + {tasks[order[|order| - 1]]} by {
        forall x | x in after ensures x in before + {tasks[order[|order| - 1]]} {
          var k :| 0 <= k < |order| && tasks[order[k]] == x;
          if k < |init| {
            assert tasks[init[k]] == x;
          }
        }
        forall x | x in before ensures x in after {
          var k :| 0 <= k < |init| && tasks[init[k]] == x;
          assert tasks[order[k]] == x;
        }
      }
    }
  }

  /** Once all tasks have arrived, the keys are exactly the distinct submitted ids. */
  lemma GatherCompleteKeys(tasks: seq<Json>, replies: seq<Reply>, order: seq<int>)
    requires |replies| == |tasks|
    requires IsCompletionOrder(order, |tasks|)
    ensures Gather(tasks, replies, order).Keys == Elements(tasks)
  {
    GatherKeys(tasks, replies, order);
    var arrived := set k | 0 <= k < |order| :: tasks[order[k]];
    forall x | x in Elements(tasks) ensures x in arrived {
      var t :| 0 <= t < |tasks| && tasks[t] == x;
      assert t in order;
      var k :| 0 <= k < |order| && order[k] == t;
      assert tasks[order[k]] == x;
    }
  }

  /** The value kept for an id is the one its last-arriving task produced. */
  lemma {:induction false} GatherLastArrival(tasks: seq<Json>, replies: seq<Reply>, order: seq<int>, k: int)
    requires |replies| == |tasks|
    requires forall k' :: 0 <= k' < |order| ==> 0 <= order[k'] < |tasks|
    requires 0 <= k < |order|
    requires forall k' :: k < k' < |order| ==> tasks[order[k']] != tasks[order[k]]
    ensures tasks[order[k]] in Gather(tasks, replies, order)
    ensures Gather(tasks, replies, order)[tasks[order[k]]] == FetchGeometry(tasks[order[k]], replies[order[k]]).1
  {
    var init := order[..|order| - 1];
    if k < |order| - 1 {
      assert init[k] == order[k];
      GatherLastArrival(tasks, replies, init, k);
    }
  }

  /** Every task for the same id yields the same geometry (or None); the replies
      themselves may differ, e.g. a 404 for one task and an exception for another. */
  predicate ConsistentReplies(tasks: seq<Json>, replies: seq<Reply>) {
    && |replies| == |tasks|
    && forall t, u :: 0 <= t < |tasks| && 0 <= u < |tasks| && tasks[t] == tasks[u] ==>
         FetchGeometry(tasks[t], replies[t]).1 == FetchGeometry(tasks[u], replies[u]).1
  }

  lemma {:induction false} GatherValueConsistent(tasks: seq<Json>, replies: seq<Reply>, order: seq<int>, t: int)
    requires ConsistentReplies(tasks, replies)
    requires forall k :: 0 <= k < |order| ==> 0 <= order[k] < |tasks|
    requires 0 <= t < |tasks| && tasks[t] in Gather(tasks, replies, order)
    ensures Gather(tasks, replies, order)[tasks[t]] == FetchGeometry(tasks[t], replies[t]).1
  {
    var last := order[|order| - 1];
    if tasks[last] != tasks[t] {
      GatherValueConsistent(tasks, replies, order[..|order| - 1], t);
    }
  }

  /** When every task for the same id yields the same geometry, the gathered dict does not depend on the completion order. */
  lemma GatherOrderIndependent(tasks: seq<Json>, replies: seq<Reply>, order1: seq<int>, order2: seq<int>)
    requires ConsistentReplies(tasks, replies)
    requires IsCompletionOrder(order1, |tasks|) && IsCompletionOrder(order2, |tasks|)
    ensures Gather(tasks, replies, order1) == Gather(tasks, replies, order2)
  {
    var g1, g2 := Gather(tasks, replies, order1), Gather(tasks, replies, order2);
    GatherCompleteKeys(tasks, replies, order1);
    GatherCompleteKeys(tasks, replies, order2);
    forall x | x in g1 ensures g1[x] == g2[x] {
      var t :| 0 <= t < |tasks| && tasks[t] == x;
      GatherValueConsistent(tasks, replies, order1, t);
      GatherValueConsistent(tasks, replies, order2, t);
    }
  }

  /** A duplicated id answered once with a 404 and once with an exception: the
      replies differ, but both tasks yield None, so the order still does not matter. */
  lemma DifferentFailuresAgree(order1: seq<int>, order2: seq<int>)
    requires IsCompletionOrder(order1, 2) && IsCompletionOrder(order2, 2)
    ensures ConsistentReplies([JStr("A"), JStr("A")], [Response(404, None), Raised])
    ensures Gather([JStr("A"), JStr("A")], [Response(404, None), Raised], order1)
         == Gather([JStr("A"), JStr("A")], [Response(404, None), Raised], order2)
  {
    GatherOrderIndependent([JStr("A"), JStr("A")], [Response(404, None), Raised], order1, order2);
  }

  /** A failure injected into one task changes nothing for the other ids. */
  lemma {:induction false} GatherFailureIsolated(tasks: seq<Json>, replies: seq<Reply>, order: seq<int>, t: int, x: Json)
    requires |replies| == |tasks|
    requires forall k :: 0 <= k < |order| ==> 0 <= order[k] < |tasks|
    requires 0 <= t < |tasks| && x != tasks[t]
    ensures x in Gather(tasks, replies, order) <==> x in Gather(tasks, replies[t := Raised], order)
    ensures x in Gather(tasks, replies, order) ==>
      Gather(tasks, replies, order)[x] == Gather(tasks, replies[t := Raised], order)[x]
  {
    if order != [] {
      GatherFailureIsolated(tasks, replies, order[..|order| - 1], t, x);
    }
  }

  /** `process_batch`: one task per truthy id, then one dict write per arrival. */
  method ProcessBatch(ids: seq<Json>, replies: seq<Reply>, order: seq<int>) returns (results: map<Json, Json>)
    requires forall i :: 0 <= i < |ids| && Truthy(ids[i]) ==> IsKey(ids[i])
    requires |replies| == |Submitted(ids)|
    requires IsCompletionOrder(order, |replies|)
    ensures results == Gather(Submitted(ids), replies, order)
    ensures forall x :: x in results <==> x in ids && Truthy(x)
  {
    var tasks: seq<Json> := [];
    for i := 0 to |ids|
      invariant tasks == Submitted(ids[..i])
    {
      assert ids[..i + 1][..i] == ids[..i];
      if Truthy(ids[i]) {
        tasks := tasks + [ids[i]];
      }
    }
    assert ids[..|ids|] == ids;
    results := map[];
    for k := 0 to |order|
      invariant results == Gather(tasks, replies, order[..k])
    {
      assert order[..k + 1][..k] == order[..k];
      var (id, geometry) := FetchGeometry(tasks[order[k]], replies[order[k]]);
      results := results[id := geometry];
    }
    assert order[..|order|] == order;
    GatherCompleteKeys(tasks, replies, order);
    forall x ensures x in results <==> x in ids && Truthy(x) {
      SubmittedMembers(ids, x);
    }
  }

  // ---------------------------------------------------------------------------
  // The None filter (line 79) and the document (lines 90-112)
  // ---------------------------------------------------------------------------

  /** `{k: v for k, v in geometries.items() if v is not None}` */
  function DropNone(geometries: map<Json, Json>): (kept: map<Json, Json>)
    ensures kept.Keys <= geometries.Keys
    ensures forall k :: k in kept ==> kept[k] != JNull && kept[k] == geometries[k]
    ensures forall k :: k in geometries && geometries[k] != JNull ==> k in kept
  {
    map k | k in geometries && geometries[k] != JNull :: geometries[k]
  }

  /** The feature dict of lines 94-104. */
  function FeatureFor(id: Json, geometry: Json, propertiesMap: map<Json, Props>): Json {
    var additional := if id in propertiesMap then propertiesMap[id] else map[];
    JObj(map[
      "type" := JStr("Feature"),
      "properties" := JObj(map[
        "geometry_id" := id,
        "zone_code" := Get(additional, "zone_code"),
        "municipality" := Get(additional, "municipality")]),
      "geometry" := geometry])
  }

  /** `feature["properties"]["geometry_id"]`, JNull when the shape is different. */
  function FeatureId(feature: Json): Json {
    if feature.JObj? && "properties" in feature.fields && feature.fields["properties"].JObj?
    then Get(feature.fields["properties"].fields, "geometry_id")
    else JNull
  }

  /** The feature of one entry, with its fields spelled out. */
  lemma FeatureForFields(id: Json, geometry: Json, propertiesMap: map<Json, Props>)
    ensures var f := FeatureFor(id, geometry, propertiesMap);
      && f.JObj? && f.fields.Keys == {"type", "properties", "geometry"}
      && f.fields["type"] == JStr("Feature")
      && f.fields["geometry"] == geometry
      && f.fields["properties"].JObj?
      && f.fields["properties"].fields.Keys == {"geometry_id", "zone_code", "municipality"}
      && FeatureId(f) == id
      && f.fields["properties"].fields["zone_code"] ==
         (if id in propertiesMap then Get(propertiesMap[id], "zone_code") else JNull)
      && f.fields["properties"].fields["municipality"] ==
         (if id in propertiesMap then Get(propertiesMap[id], "municipality") else JNull)
  {
  }

  /** `feature` is the one built for its own id's entry. */
  predicate BuiltFrom(feature: Json, geometries: map<Json, Json>, propertiesMap: map<Json, Props>) {
    && FeatureId(feature) in geometries
    && feature == FeatureFor(FeatureId(feature), geometries[FeatureId(feature)], propertiesMap)
  }

  /** Every feature is the one built for its own id's entry. */
  predicate AllBuilt(features: seq<Json>, geometries: map<Json, Json>, propertiesMap: map<Json, Props>) {
    forall i :: 0 <= i < |features| ==> BuiltFrom(features[i], geometries, propertiesMap)
  }

  /** No two features carry the same id. */
  predicate DistinctIds(features: seq<Json>) {
    forall i, j :: 0 <= i < j < |features| ==> FeatureId(features[i]) != FeatureId(features[j])
  }

  /** Every entry has a feature. */
  predicate Covers(features: seq<Json>, geometries: map<Json, Json>) {
    forall k :: k in geometries ==> exists i :: 0 <= i < |features| && FeatureId(features[i]) == k
  }

  /** `doc` is the FeatureCollection of `geometries`: only `type` and `features` at
      the top, one feature per entry in some order, each built from its entry. */
  predicate Assembles(doc: Json, geometries: map<Json, Json>, propertiesMap: map<Json, Props>) {
    && doc.JObj?
    && doc.fields.Keys == {"type", "features"}
    && doc.fields["type"] == JStr("FeatureCollection")
    && doc.fields["features"].JArr?
    && var features := doc.fields["features"].items;
       && |features| == |geometries|
       && AllBuilt(features, geometries, propertiesMap)
       && DistinctIds(features)
       && Covers(features, geometries)
  }

  /** Built features with the same id are the same feature, so features built
      from the entries all occur among features that cover the entries. */
  lemma BuiltIncluded(fs1: seq<Json>, fs2: seq<Json>, geometries: map<Json, Json>, propertiesMap: map<Json, Props>)
    requires AllBuilt(fs1, geometries, propertiesMap) && AllBuilt(fs2, geometries, propertiesMap)
    requires Covers(fs2, geometries)
    ensures Elements(fs1) <= Elements(fs2)
  {
    forall x | x in Elements(fs1) ensures x in Elements(fs2) {
      var i :| 0 <= i < |fs1| && fs1[i] == x;
      assert BuiltFrom(fs1[i], geometries, propertiesMap);
      var j :| 0 <= j < |fs2| && FeatureId(fs2[j]) == FeatureId(fs1[i]);
      assert BuiltFrom(fs2[j], geometries, propertiesMap);
    }
  }

  /** Features with distinct ids are distinct. */
  lemma DistinctIdsDistinct(features: seq<Json>)
    requires DistinctIds(features)
    ensures Distinct(features)
  {
    forall i, j | 0 <= i < j < |features| ensures features[i] != features[j] {
      assert FeatureId(features[i]) != FeatureId(features[j]);
    }
  }

  /** Two assemblies of the same entries differ at most in the order of their features. */
  lemma AssemblyUniqueUpToOrder(doc1: Json, doc2: Json, geometries: map<Json, Json>, propertiesMap: map<Json, Props>)
    requires Assembles(doc1, geometries, propertiesMap) && Assembles(doc2, geometries, propertiesMap)
    ensures doc1.fields["type"] == doc2.fields["type"]
    ensures multiset(doc1.fields["features"].items) == multiset(doc2.fields["features"].items)
  {
    var fs1, fs2 := doc1.fields["features"].items, doc2.fields["features"].items;
    BuiltIncluded(fs1, fs2, geometries, propertiesMap);
    BuiltIncluded(fs2, fs1, geometries, propertiesMap);
    DistinctIdsDistinct(fs1);
    DistinctIdsDistinct(fs2);
    DistinctSameElements(fs1, fs2);
  }

  /** `create_geojson`: the loop visits the entries in the dict's iteration order,
      which here is any order. */
  method CreateGeoJson(geometries: map<Json, Json>, propertiesMap: map<Json, Props>) returns (geojson: Json)
    ensures Assembles(geojson, geometries, propertiesMap)
  {
    var features: seq<Json> := [];
    var remaining := geometries.Keys;
    ghost var visited: seq<Json> := [];
    while remaining != {}
      invariant remaining !! Elements(visited) && remaining + Elements(visited) == geometries.Keys
      invariant Distinct(visited) && |features| == |visited|
      invariant forall i :: 0 <= i < |features| ==> FeatureId(features[i]) == visited[i]
      invariant AllBuilt(features, geometries, propertiesMap)
      decreases remaining
    {
      var geometryId :| geometryId in remaining;
      var feature := FeatureFor(geometryId, geometries[geometryId], propertiesMap);
      FeatureForFields(geometryId, geometries[geometryId], propertiesMap);
      assert BuiltFrom(feature, geometries, propertiesMap);
      features := features + [feature];
      visited := visited + [geometryId];
      remaining := remaining - {geometryId};
    }
    geojson := JObj(map["type" := JStr("FeatureCollection"), "features" := JArr(features)]);
    CollectionOfVisited(features, visited, geometries, propertiesMap);
  }

  /** Closing step of CreateGeoJson: a feature per visited key, every key visited once. */
  lemma CollectionOfVisited(features: seq<Json>, visited: seq<Json>, geometries: map<Json, Json>, propertiesMap: map<Json, Props>)
    requires Distinct(visited) && |features| == |visited| && Elements(visited) == geometries.Keys
    requires forall i :: 0 <= i < |features| ==> FeatureId(features[i]) == visited[i]
    requires AllBuilt(features, geometries, propertiesMap)
    ensures Assembles(JObj(map["type" := JStr("FeatureCollection"), "features" := JArr(features)]), geometries, propertiesMap)
  {
    DistinctCardinality(visited);
    assert DistinctIds(features) by {
      forall i, j | 0 <= i < j < |features| ensures FeatureId(features[i]) != FeatureId(features[j]) {
        assert visited[i] != visited[j];
      }
    }
    forall k | k in geometries ensures exists i :: 0 <= i < |features| && FeatureId(features[i]) == k {
      assert k in Elements(visited);
      var i :| 0 <= i < |visited| && visited[i] == k;
      assert FeatureId(features[i]) == k;
    }
  }

  // ---------------------------------------------------------------------------
  // The whole run (lines 54-86)
  // ---------------------------------------------------------------------------

  /** The `geometries` dict after the None filter. */
  function Fetched(data: seq<Item>, replies: seq<Reply>, order: seq<int>): map<Json, Json>
    requires |replies| == |GeometryIds(data)|
    requires IsCompletionOrder(order, |replies|)
  {
    DropNone(Gather(GeometryIds(data), replies, order))
  }

  /** Every fetched geometry is non-null and belongs to a listed id, so the success
      count never exceeds the number of ids. */
  lemma FetchedBounds(data: seq<Item>, replies: seq<Reply>, order: seq<int>)
    requires |replies| == |GeometryIds(data)|
    requires IsCompletionOrder(order, |replies|)
    ensures Fetched(data, replies, order).Keys <= Elements(GeometryIds(data))
    ensures forall k :: k in Fetched(data, replies, order) ==> Fetched(data, replies, order)[k] != JNull
    ensures |Fetched(data, replies, order)| <= |GeometryIds(data)|
  {
    var ids := GeometryIds(data);
    GatherCompleteKeys(ids, replies, order);
    ElementsBound(ids);
    var f := Fetched(data, replies, order);
    assert |f.Keys| <= |Elements(ids)| by {
      assert f.Keys <= Elements(ids);
      SubsetCardinality(f.Keys, Elements(ids));
    }
  }

  lemma SubsetCardinality<T>(a: set<T>, b: set<T>)
    requires a <= b
    ensures |a| <= |b|
  {
    assert b == a + (b - a);
  }

  /** An id is in the output exactly when its last-arriving reply carried a non-null geometry. */
  lemma FetchedExactly(data: seq<Item>, replies: seq<Reply>, order: seq<int>, k: int)
    requires |replies| == |GeometryIds(data)|
    requires IsCompletionOrder(order, |replies|)
    requires 0 <= k < |order|
    requires forall k' :: k < k' < |order| ==> GeometryIds(data)[order[k']] != GeometryIds(data)[order[k]]
    ensures var ids := GeometryIds(data); var g := FetchGeometry(ids[order[k]], replies[order[k]]).1;
      && (ids[order[k]] in Fetched(data, replies, order) <==> g != JNull)
      && (g != JNull ==> Fetched(data, replies, order)[ids[order[k]]] == g)
  {
    GatherLastArrival(GeometryIds(data), replies, order, k);
  }

  /** Every listed id is a valid dict key and gets a task of its own, in list order. */
  lemma ListedIdsSubmitted(data: seq<Item>)
    requires HashableIds(data)
    ensures Submitted(GeometryIds(data)) == GeometryIds(data)
    ensures forall i :: 0 <= i < |GeometryIds(data)| ==> IsKey(GeometryIds(data)[i])
  {
    var ids := GeometryIds(data);
    SubmittedAllTruthy(ids);
    forall i | 0 <= i < |ids| ensures IsKey(ids[i]) {
      GeometryIdsMembers(data, ids[i]);
    }
  }

  /** The `geometries` dict of lines 76-79 is Fetched, and it has at most one entry per listed id. */
  lemma FetchedOfBatch(data: seq<Item>, replies: seq<Reply>, order: seq<int>, batchResults: map<Json, Json>)
    requires |replies| == |GeometryIds(data)|
    requires IsCompletionOrder(order, |replies|)
    requires batchResults == Gather(GeometryIds(data), replies, order)
    ensures DropNone(map[] + batchResults) == Fetched(data, replies, order)
    ensures |Fetched(data, replies, order)| <= |GeometryIds(data)|
  {
    assert map[] + batchResults == batchResults;
    FetchedBounds(data, replies, order);
  }

  /** `fetch_all_geometries` without the file I/O: the document and the two
      counts of the summary line (succeeded, ids found). */
  method FetchAllGeometries(data: seq<Item>, replies: seq<Reply>, order: seq<int>)
    returns (geojson: Json, fetched: nat, total: nat)
    requires HashableIds(data)
    requires |replies| == |GeometryIds(data)|
    requires IsCompletionOrder(order, |replies|)
    ensures total == |GeometryIds(data)|
    ensures fetched == |Fetched(data, replies, order)| <= total
    ensures Assembles(geojson, Fetched(data, replies, order), PropertiesOf(data))
  {
    var propertiesMap := BuildPropertiesMap(data);
    var geometryIds := GeometryIds(data);
    ListedIdsSubmitted(data);
    var batchResults := ProcessBatch(geometryIds, replies, order);
    var geometries := DropNone(map[] + batchResults);
    FetchedOfBatch(data, replies, order, batchResults);
    geojson := CreateGeoJson(geometries, propertiesMap);
    fetched, total := |geometries|, |geometryIds|;
  }

  /** The gathering step of OneOfTwoFetched: A's reply carries a geometry and B's raised. */
  lemma GatherExample(ids: seq<Json>, replies: seq<Reply>, order: seq<int>, polygon: Json)
    requires ids == [JStr("A"), JStr("B")]
    requires replies == [Response(200, Some(JObj(map["geometry" := polygon]))), Raised]
    requires IsCompletionOrder(order, 2)
    ensures Gather(ids, replies, order) == map[JStr("A") := FetchGeometry(ids[0], replies[0]).1, JStr("B") := JNull]
  {
    assert 0 in order && 1 in order;
    assert order[..1][..0] == [];
    assert Gather(ids, replies, order[..1]) == map[][ids[order[0]] := FetchGeometry(ids[order[0]], replies[order[0]]).1];
    assert Gather(ids, replies, order) ==
      Gather(ids, replies, order[..1])[ids[order[1]] := FetchGeometry(ids[order[1]], replies[order[1]]).1];
    var a, b := FetchGeometry(ids[0], replies[0]), FetchGeometry(ids[1], replies[1]);
    assert a == (JStr("A"), a.1) && b == (JStr("B"), JNull);
    if order[0] == 0 {
      assert Gather(ids, replies, order) == map[][JStr("A") := a.1][JStr("B") := JNull];
    } else {
      assert Gather(ids, replies, order) == map[][JStr("B") := JNull][JStr("A") := a.1];
    }
  }

  /** A document assembled from a single entry holds exactly that entry's feature. */
  lemma AssembledSingle(doc: Json, id: Json, geometry: Json, propertiesMap: map<Json, Props>)
    requires Assembles(doc, map[id := geometry], propertiesMap)
    ensures doc.fields["features"].items == [FeatureFor(id, geometry, propertiesMap)]
  {
    var features := doc.fields["features"].items;
    assert BuiltFrom(features[0], map[id := geometry], propertiesMap);
    assert features == [features[0]];
  }

  /** The id list and properties table of OneOfTwoFetched: an entry per id, neither with zone fields. */
  lemma ExampleTables(data: seq<Item>)
    requires data == [map["id" := JInt(1), "geometry_id" := JStr("A")], map["id" := JInt(2), "geometry_id" := JStr("B")]]
    ensures PropertiesOf(data) == map[JStr("A") := map["zone_code" := JNull, "municipality" := JNull],
                                      JStr("B") := map["zone_code" := JNull, "municipality" := JNull]]
    ensures GeometryIds(data) == [JStr("A"), JStr("B")]
  {
    assert data[1..] == [data[1]] && data[1..][1..] == [];
    var none := map["zone_code" := JNull, "municipality" := JNull];
    assert ZoneProps(data[0]) == none && ZoneProps(data[1]) == none;
    assert data[..1][..0] == [];
    assert PropertiesOf(data[..1]) == map[JStr("A") := none];
    assert data[..|data| - 1] == data[..1];
  }

  /** Two records whose ids are "A" and "B"; A's lookup succeeds and B's raises:
      whichever completes first, only A is fetched, the counts are 1 out of 2, and
      the properties table gives both ids null zone fields, and the document holds a
      single feature, for A. */
  lemma OneOfTwoFetched(polygon: Json, order: seq<int>, doc: Json)
    requires polygon != JNull
    requires IsCompletionOrder(order, 2)
    ensures var data := [map["id" := JInt(1), "geometry_id" := JStr("A")], map["id" := JInt(2), "geometry_id" := JStr("B")]];
      var replies := [Response(200, Some(JObj(map["geometry" := polygon]))), Raised];
      && GeometryIds(data) == [JStr("A"), JStr("B")]
      && Fetched(data, replies, order) == map[JStr("A") := polygon]
      && PropertiesOf(data) == map[JStr("A") := map["zone_code" := JNull, "municipality" := JNull],
                                   JStr("B") := map["zone_code" := JNull, "municipality" := JNull]]
      && (Assembles(doc, Fetched(data, replies, order), PropertiesOf(data)) ==>
            doc.fields["features"].items == [FeatureFor(JStr("A"), polygon, PropertiesOf(data))])
  {
    var data := [map["id" := JInt(1), "geometry_id" := JStr("A")], map["id" := JInt(2), "geometry_id" := JStr("B")]];
    var replies := [Response(200, Some(JObj(map["geometry" := polygon]))), Raised];
    ExampleTables(data);
    var ids := GeometryIds(data);
    GatherExample(ids, replies, order, polygon);
    assert FetchGeometry(ids[0], replies[0]).1 == polygon;
    var fetched := DropNone(map[JStr("A") := polygon, JStr("B") := JNull]);
    assert fetched.Keys == {JStr("A")};
    assert fetched == map[JStr("A") := polygon];
    if Assembles(doc, fetched, PropertiesOf(data)) {
      AssembledSingle(doc, JStr("A"), polygon, PropertiesOf(data));
    }
  }
}
