/** The transformation of flatten_geojson.py: a feature whose geometry is itself
    a FeatureCollection is replaced by the features nested in it, each carrying
    the outer properties overlaid by its own; every other feature is kept as it
    is. Reading and writing the files is not modelled. */
module FlattenGeoJson {
  import opened JsonValues

  const FEATURE_COLLECTION: Json := JStr("FeatureCollection")

  /** `data.get('features', [])` */
  function FeaturesOf(data: map<string, Json>): Json {
    GetOr(data, "features", JArr([]))
  }

  /** `feature.get('geometry', {})` */
  function GeometryOf(feature: map<string, Json>): Json {
    GetOr(feature, "geometry", JObj(map[]))
  }

  /** The test of line 19: the geometry is a dict whose `type` is "FeatureCollection". */
  predicate IsNested(feature: map<string, Json>) {
    GeometryOf(feature).JObj? && Get(GeometryOf(feature).fields, "type") == FEATURE_COLLECTION
  }

  /** `feature.get('geometry', {}).get('features', [])`, read only when the geometry is a dict. */
  function NestedOf(feature: map<string, Json>): Json {
    if GeometryOf(feature).JObj? then GetOr(GeometryOf(feature).fields, "features", JArr([])) else JArr([])
  }

  /** `feature.get('properties', {})` */
  function FeatureProperties(feature: map<string, Json>): Json {
    GetOr(feature, "properties", JObj(map[]))
  }

  /** The nested feature's own properties when line 27 lets them through, `{}` otherwise. */
  function OwnProperties(nested: map<string, Json>): map<string, Json> {
    if "properties" in nested && Truthy(nested["properties"]) && nested["properties"].JObj?
    then nested["properties"].fields
    else map[]
  }

  /** A value a `for` loop of the script goes through without raising: a list,
      or an empty dict or string, over which the loop does nothing (a non-empty
      dict or string would hand the body strings, on which `.get` and `.copy` raise). */
  predicate Iterable(j: Json) {
    j.JArr? || j == JObj(map[]) || j == JStr("")
  }

  /** The values a `for` loop over `j` visits when `j` is Iterable. */
  function Iterated(j: Json): seq<Json> {
    if j.JArr? then j.items else []
  }

  // ---------------------------------------------------------------------------
  // Inputs the script reads without raising
  // ---------------------------------------------------------------------------

  /** A nested feature is a dict whose properties, when truthy, are a dict (`.copy()`, `.update`). */
  predicate WellFormedNested(nested: Json) {
    && nested.JObj?
    && ("properties" in nested.fields && Truthy(nested.fields["properties"]) ==> nested.fields["properties"].JObj?)
  }

  /** Every feature is a dict whose geometry, if any, is a dict (line 19 calls `.get` on it).
      A nested one has iterable nested features, all well formed, and dict
      properties as soon as there is one nested feature to copy them for (line 26). */
  predicate WellFormedFeature(feature: Json) {
    && feature.JObj?
    && GeometryOf(feature.fields).JObj?
    && (IsNested(feature.fields) ==>
          && Iterable(NestedOf(feature.fields))
          && (|Iterated(NestedOf(feature.fields))| > 0 ==> FeatureProperties(feature.fields).JObj?)
          && forall j :: 0 <= j < |Iterated(NestedOf(feature.fields))| ==> WellFormedNested(Iterated(NestedOf(feature.fields))[j]))
  }

  /** The document is a dict; when it is a FeatureCollection, its features are iterable and well formed. */
  predicate WellFormedInput(data: Json) {
    && data.JObj?
    && (Get(data.fields, "type") == FEATURE_COLLECTION ==>
          && Iterable(FeaturesOf(data.fields))
          && forall i :: 0 <= i < |Iterated(FeaturesOf(data.fields))| ==> WellFormedFeature(Iterated(FeaturesOf(data.fields))[i]))
  }

  // ---------------------------------------------------------------------------
  // The transformation as functions (on well-formed input they are what the
  // script computes; the other branches are never taken there)
  // ---------------------------------------------------------------------------

  /** Lines 24-30: a copy of the nested feature whose properties are the outer ones updated by its own. */
  function Expand(outer: map<string, Json>, nested: Json): Json {
    if nested.JObj? then JObj(nested.fields["properties" := JObj(outer + OwnProperties(nested.fields))]) else nested
  }

  function ExpandAll(outer: map<string, Json>, nested: seq<Json>): seq<Json> {
    if nested == [] then []
    else ExpandAll(outer, nested[..|nested| - 1]) + [Expand(outer, nested[|nested| - 1])]
  }

  predicate IsNestedFeature(feature: Json) {
    feature.JObj? && IsNested(feature.fields)
  }

  /** What one input feature turns into. */
  function FlattenFeature(feature: Json): seq<Json> {
    if IsNestedFeature(feature)
    then ExpandAll(FieldsOf(FeatureProperties(feature.fields)), Iterated(NestedOf(feature.fields)))
    else [feature]
  }

  /** The features list of the output: each input feature's output, in input order. */
  function FlattenAll(features: seq<Json>): seq<Json> {
    Concat(FlattenFeature, features)
  }

  function Collection(features: seq<Json>): Json {
    JObj(map["type" := FEATURE_COLLECTION, "features" := JArr(features)])
  }

  // ---------------------------------------------------------------------------
  // Properties
  // ---------------------------------------------------------------------------

  /** The nested features come out once each, in order. */
  lemma {:induction false} ExpandAllAt(outer: map<string, Json>, nested: seq<Json>)
    ensures |ExpandAll(outer, nested)| == |nested|
    ensures forall j :: 0 <= j < |nested| ==> ExpandAll(outer, nested)[j] == Expand(outer, nested[j])
  {
    if nested != [] {
      ExpandAllAt(outer, nested[..|nested| - 1]);
    }
  }

  /** An expanded feature keeps every field of the nested one and adds only `properties`. */
  lemma ExpandKeepsFields(outer: map<string, Json>, nested: Json)
    requires nested.JObj?
    ensures Expand(outer, nested).JObj?
    ensures Expand(outer, nested).fields.Keys == nested.fields.Keys + {"properties"}
    ensures forall k :: k in nested.fields && k != "properties" ==> Expand(outer, nested).fields[k] == nested.fields[k]
  {
  }

  /** The expanded feature's properties: the union of the outer and the nested
      keys, the nested value winning on a collision; with no (or empty) nested
      properties, exactly the outer ones. */
  lemma ExpandProperties(outer: map<string, Json>, nested: Json)
    requires WellFormedNested(nested)
    ensures Expand(outer, nested).fields["properties"].JObj?
    ensures var merged := Expand(outer, nested).fields["properties"].fields; var own := OwnProperties(nested.fields);
      && merged.Keys == outer.Keys + own.Keys
      && (forall k :: k in own ==> merged[k] == own[k])
      && (forall k :: k in outer && k !in own ==> merged[k] == outer[k])
      && (!("properties" in nested.fields && Truthy(nested.fields["properties"])) ==> merged == outer)
      && (own.Keys == {} ==> merged == outer)
  {
    var own := OwnProperties(nested.fields);
    if own.Keys == {} {
      assert outer + own == outer;
    }
  }

  /** One level only: a nested feature whose own geometry is a FeatureCollection
      is emitted with that geometry, not expanded further. */
  lemma ExpandIsOneLevel(outer: map<string, Json>, nested: Json)
    requires nested.JObj? && IsNested(nested.fields)
    ensures IsNestedFeature(Expand(outer, nested))
    ensures GeometryOf(Expand(outer, nested).fields) == GeometryOf(nested.fields)
  {
  }

  /** A feature is replaced by its own output, at its own position between the
      outputs of its neighbours; a regular feature comes out unchanged. */
  lemma FlattenAllAt(before: seq<Json>, feature: Json, after: seq<Json>)
    ensures FlattenAll(before + [feature] + after) == FlattenAll(before) + FlattenFeature(feature) + FlattenAll(after)
    ensures !IsNestedFeature(feature) ==> FlattenFeature(feature) == [feature]
  {
    ConcatAt(FlattenFeature, before, feature, after);
  }

  /** Number of output features: the nested count for a nested feature, 1 otherwise. */
  function OutputCount(features: seq<Json>): nat {
    if features == [] then 0
    else
      var f := features[|features| - 1];
      OutputCount(features[..|features| - 1]) + (if IsNestedFeature(f) then |Iterated(NestedOf(f.fields))| else 1)
  }

  lemma {:induction false} FlattenAllCount(features: seq<Json>)
    ensures |FlattenAll(features)| == OutputCount(features)
  {
    if features != [] {
      var f := features[|features| - 1];
      FlattenAllCount(features[..|features| - 1]);
      if IsNestedFeature(f) {
        ExpandAllAt(FieldsOf(FeatureProperties(f.fields)), Iterated(NestedOf(f.fields)));
      }
    }
  }

  /** No feature has a FeatureCollection geometry: nothing is left to flatten. */
  predicate Shallow(features: seq<Json>) {
    forall i :: 0 <= i < |features| ==> !IsNestedFeature(features[i])
  }

  /** Nothing is nested two levels deep: no nested feature of a nested feature is nested itself. */
  predicate OneLevel(features: seq<Json>) {
    forall i :: 0 <= i < |features| && IsNestedFeature(features[i]) ==>
      forall j :: 0 <= j < |Iterated(NestedOf(features[i].fields))| ==>
        !IsNestedFeature(Iterated(NestedOf(features[i].fields))[j])
  }

  lemma {:induction false} FlattenAllShallow(features: seq<Json>)
    requires OneLevel(features)
    ensures Shallow(FlattenAll(features))
  {
    if features != [] {
      var init, f := features[..|features| - 1], features[|features| - 1];
      assert OneLevel(init) by {
        forall i | 0 <= i < |init| ensures init[i] == features[i] { }
      }
      FlattenAllShallow(init);
      ConcatAppend(FlattenFeature, init, [f]);
      assert init + [f] == features;
      if IsNestedFeature(f) {
        var outer, nested := FieldsOf(FeatureProperties(f.fields)), Iterated(NestedOf(f.fields));
        ExpandAllAt(outer, nested);
        forall j | 0 <= j < |nested| ensures !IsNestedFeature(Expand(outer, nested[j])) {
          assert !IsNestedFeature(nested[j]);
          if nested[j].JObj? {
            assert GeometryOf(Expand(outer, nested[j]).fields) == GeometryOf(nested[j].fields);
          }
        }
      }
    }
  }

  /** Flattening features of which none is nested leaves them unchanged. */
  lemma {:induction false} FlattenShallowIdentity(features: seq<Json>)
    requires Shallow(features)
    ensures FlattenAll(features) == features
  {
    if features != [] {
      var init := features[..|features| - 1];
      assert Shallow(init) by {
        forall i | 0 <= i < |init| ensures init[i] == features[i] { }
      }
      FlattenShallowIdentity(init);
    }
  }

  /** When nothing is nested two levels deep, flattening the output again changes nothing. */
  lemma FlattenIdempotentOneLevel(features: seq<Json>)
    requires OneLevel(features)
    ensures FlattenAll(FlattenAll(features)) == FlattenAll(features)
  {
    FlattenAllShallow(features);
    FlattenShallowIdentity(FlattenAll(features));
  }

  /** A regular feature whose geometry happens to carry a `features` list is not read
      for nesting, so it meets OneLevel and flattening it is idempotent. */
  lemma RegularWithFeaturesList(f: Json)
    requires f == JObj(map["type" := JStr("Feature"),
                           "geometry" := JObj(map["type" := JStr("Polygon"), "features" := JArr([JInt(5)])])])
    ensures OneLevel([f])
    ensures FlattenAll([f]) == [f]
    ensures FlattenAll(FlattenAll([f])) == FlattenAll([f])
  {
    var geometry := map["type" := JStr("Polygon"), "features" := JArr([JInt(5)])];
    assert GeometryOf(f.fields) == JObj(geometry);
    assert Get(geometry, "type") == JStr("Polygon") != FEATURE_COLLECTION;
    assert !IsNestedFeature(f);
    FlattenShallowIdentity([f]);
  }

  // ---------------------------------------------------------------------------
  // The script (lines 9-34)
  // ---------------------------------------------------------------------------

  /** `flatten_geojson` on the decoded input: no document unless the input is a
      FeatureCollection; otherwise a FeatureCollection of the flattened features. */
  method Flatten(data: Json) returns (output: Option<Json>)
    requires WellFormedInput(data)
    ensures Get(data.fields, "type") != FEATURE_COLLECTION ==> output == None
    ensures Get(data.fields, "type") == FEATURE_COLLECTION ==>
      output == Some(Collection(FlattenAll(Iterated(FeaturesOf(data.fields)))))
  {
    if Get(data.fields, "type") != FEATURE_COLLECTION {
      return None;
    }
    var input := Iterated(FeaturesOf(data.fields));
    var features: seq<Json> := [];
    for i := 0 to |input|
      invariant features == FlattenAll(input[..i])
    {
      assert input[..i + 1][..i] == input[..i];
      var feature := input[i];
      assert WellFormedFeature(feature);
      if GeometryOf(feature.fields).JObj? && Get(GeometryOf(feature.fields).fields, "type") == FEATURE_COLLECTION {
        var nestedFeatures := Iterated(NestedOf(feature.fields));
        var properties := FeatureProperties(feature.fields);
        for j := 0 to |nestedFeatures|
          invariant features == FlattenAll(input[..i]) + ExpandAll(FieldsOf(properties), nestedFeatures[..j])
        {
          assert nestedFeatures[..j + 1][..j] == nestedFeatures[..j];
          assert WellFormedNested(nestedFeatures[j]);
          assert properties.JObj?;
          var nestedFeature := nestedFeatures[j].fields;
          var newProperties := properties.fields;
          if "properties" in nestedFeature && Truthy(nestedFeature["properties"]) {
            newProperties := newProperties + nestedFeature["properties"].fields;
          } else {
            assert properties.fields + OwnProperties(nestedFeature) == properties.fields;
          }
          var newFeature := JObj(nestedFeature["properties" := JObj(newProperties)]);
          assert newFeature == Expand(properties.fields, nestedFeatures[j]);
          features := features + [newFeature];
        }
        assert nestedFeatures[..|nestedFeatures|] == nestedFeatures;
      } else {
        features := features + [feature];
      }
    }
    assert input[..|input|] == input;
    output := Some(Collection(features));
  }

  /** The output document has only `type` and `features`, its type is
      "FeatureCollection", and it holds one feature per regular input
      feature plus one per nested feature. */
  lemma CollectionShape(features: seq<Json>)
    ensures var doc := Collection(FlattenAll(features));
      && doc.fields.Keys == {"type", "features"}
      && doc.fields["type"] == FEATURE_COLLECTION
      && |doc.fields["features"].items| == OutputCount(features)
  {
    FlattenAllCount(features);
  }

  /** Overlaying one property on a dict sets that one key. */
  lemma OverlayOne(outer: map<string, Json>, k: string, v: Json)
    ensures outer + map[k := v] == outer[k := v]
  {
  }

  /** A single nested feature whose geometry holds three features turns into their three expansions. */
  lemma FlattenOneNested(feature: Json, outer: map<string, Json>, a: Json, b: Json, c: Json)
    requires feature.JObj? && IsNested(feature.fields)
    requires FeatureProperties(feature.fields) == JObj(outer) && NestedOf(feature.fields) == JArr([a, b, c])
    ensures FlattenAll([feature]) == [Expand(outer, a), Expand(outer, b), Expand(outer, c)]
  {
    FlattenAllAt([], feature, []);
    assert [] + [feature] + [] == [feature];
    ExpandAllAt(outer, [a, b, c]);
  }

  /** The three expansions of ThreeNestedExample. */
  lemma ExpandExample(outer: map<string, Json>, n1: map<string, Json>, n2: map<string, Json>, n3: map<string, Json>)
    requires outer == map["zone" := JStr("Z1"), "name" := JStr("outer")]
    requires n1 == map["id" := JInt(1), "properties" := JObj(map["name" := JStr("inner")])]
    requires n2 == map["id" := JInt(2), "properties" := JObj(map["extra" := JInt(7)])]
    requires n3 == map["id" := JInt(3)]
    ensures Expand(outer, JObj(n1)) == JObj(n1["properties" := JObj(outer["name" := JStr("inner")])])
    ensures Expand(outer, JObj(n2)) == JObj(n2["properties" := JObj(outer["extra" := JInt(7)])])
    ensures Expand(outer, JObj(n3)) == JObj(n3["properties" := JObj(outer)])
  {
    OverlayOne(outer, "name", JStr("inner"));
    OverlayOne(outer, "extra", JInt(7));
    assert |map["name" := JStr("inner")]| == 1 && |map["extra" := JInt(7)]| == 1;
    assert OwnProperties(n1) == map["name" := JStr("inner")];
    assert OwnProperties(n2) == map["extra" := JInt(7)];
    assert outer + OwnProperties(n3) == outer;
  }

  /** A feature with two outer properties whose geometry nests three features
      becomes three features, each with the outer properties plus its own, its
      own value winning on `name`. */
  lemma ThreeNestedExample()
    ensures
      var outer := map["zone" := JStr("Z1"), "name" := JStr("outer")];
      var n1 := map["id" := JInt(1), "properties" := JObj(map["name" := JStr("inner")])];
      var n2 := map["id" := JInt(2), "properties" := JObj(map["extra" := JInt(7)])];
      var n3 := map["id" := JInt(3)];
      var feature := JObj(map[
        "type" := JStr("Feature"),
        "properties" := JObj(outer),
        "geometry" := JObj(map["type" := FEATURE_COLLECTION, "features" := JArr([JObj(n1), JObj(n2), JObj(n3)])])]);
      FlattenAll([feature]) == [
        JObj(n1["properties" := JObj(outer["name" := JStr("inner")])]),
        JObj(n2["properties" := JObj(outer["extra" := JInt(7)])]),
        JObj(n3["properties" := JObj(outer)])]
  {
    var outer := map["zone" := JStr("Z1"), "name" := JStr("outer")];
    var n1 := map["id" := JInt(1), "properties" := JObj(map["name" := JStr("inner")])];
    var n2 := map["id" := JInt(2), "properties" := JObj(map["extra" := JInt(7)])];
    var n3 := map["id" := JInt(3)];
    var feature := JObj(map[
      "type" := JStr("Feature"),
      "properties" := JObj(outer),
      "geometry" := JObj(map["type" := FEATURE_COLLECTION, "features" := JArr([JObj(n1), JObj(n2), JObj(n3)])])]);
    FlattenOneNested(feature, outer, JObj(n1), JObj(n2), JObj(n3));
    ExpandExample(outer, n1, n2, n3);
  }
}
