/**
 * The GeoJSON export script: all annotations of a bulk annotation object, group
 * after group, written as the polygons of one MultiPolygon feature, each polygon a
 * single ring closed by repeating its first point.
 */
module ExportToGeojson {
  import opened Wrappers
  import opened Indices
  import opened AnnotationTypes

  /** numpy's error for `ann[0]` on an annotation without points. */
  const NoFirstPoint := IndexError("index 0 is out of bounds for axis 0 with size 0")

  /** The graphic data of each group, in group order. */
  function GraphicDataOf<P>(groups: seq<AnnotationGroup<P>>): (r: seq<seq<seq<P>>>)
    ensures |r| == |groups| && forall j :: 0 <= j < |r| ==> r[j] == groups[j].graphicData
  {
    seq(|groups|, j requires 0 <= j < |groups| => groups[j].graphicData)
  }

  /** The number of annotations over all groups. */
  function AnnotationCount<P>(groups: seq<AnnotationGroup<P>>): nat
    decreases |groups|
  {
    if groups == [] then 0 else AnnotationCount(groups[..|groups| - 1]) + |groups[|groups| - 1].graphicData|
  }

  /** `get_annotations`: the graphic data of all groups, extended group after group. */
  method GetAnnotations<P>(groups: seq<AnnotationGroup<P>>) returns (all: seq<seq<P>>)
    ensures all == Flatten(GraphicDataOf(groups))
  {
    all := [];
    for i := 0 to |groups|
      invariant all == Flatten(GraphicDataOf(groups[..i]))
    {
      assert GraphicDataOf(groups[..i + 1]) == GraphicDataOf(groups[..i]) + [groups[i].graphicData];
      all := all + groups[i].graphicData;
    }
    assert groups[..|groups|] == groups;
  }

  /** Every annotation of every group is exported, none twice: one entry per annotation. */
  lemma {:induction false} AnnotationsCounted<P>(groups: seq<AnnotationGroup<P>>)
    ensures |Flatten(GraphicDataOf(groups))| == AnnotationCount(groups)
    decreases |groups|
  {
    if groups != [] {
      var prefix := groups[..|groups| - 1];
      AnnotationsCounted(prefix);
      assert GraphicDataOf(groups) == GraphicDataOf(prefix) + [groups[|groups| - 1].graphicData];
    }
  }

  /** The annotations of the groups before group `j` come first, then its own, in order. */
  lemma {:induction false} AnnotationsInGroupOrder<P>(groups: seq<AnnotationGroup<P>>, j: nat, k: nat)
    requires j < |groups| && k < |groups[j].graphicData|
    ensures AnnotationCount(groups[..j]) + k < |Flatten(GraphicDataOf(groups))|
    ensures Flatten(GraphicDataOf(groups))[AnnotationCount(groups[..j]) + k] == groups[j].graphicData[k]
    decreases |groups|
  {
    var m := |groups| - 1;
    var prefix := groups[..m];
    assert GraphicDataOf(groups) == GraphicDataOf(prefix) + [groups[m].graphicData];
    AnnotationsCounted(prefix);
    if j < m {
      assert prefix[..j] == groups[..j];
      AnnotationsInGroupOrder(prefix, j, k);
    } else {
      assert prefix == groups[..j];
    }
  }

  /** `annotation_to_geojson_format`: the ring closed by its first point, as a polygon of one ring. */
  function AnnotationToGeojson<P>(ann: seq<P>): (r: Result<seq<seq<P>>>)
    ensures ann == [] <==> r == Err(NoFirstPoint)
    ensures r.Ok? ==> |r.value| == 1 && |r.value[0]| == |ann| + 1
    ensures r.Ok? ==> r.value[0][..|ann|] == ann && r.value[0][|ann|] == ann[0]
  {
    if ann == [] then Err(NoFirstPoint) else Ok([ann + [ann[0]]])
  }

  /**
   * The exported polygon is a closed ring (last point equals first) and dropping
   * its closing point gives back the annotation.
   */
  lemma RingClosedAndInvertible<P>(ann: seq<P>)
    requires ann != []
    ensures var ring := AnnotationToGeojson(ann).value[0];
      && ring[0] == ring[|ring| - 1]
      && ring[..|ring| - 1] == ann
  {
    var ring := AnnotationToGeojson(ann).value[0];
    assert ring[0] == ring[..|ann|][0];
  }

  datatype Geometry<P> = Geometry(geometryType: string, coordinates: seq<seq<seq<P>>>)
  datatype Feature<P> = Feature(featureType: string, properties: map<string, string>, geometry: Geometry<P>)
  datatype FeatureCollection<P> = FeatureCollection(collectionType: string, features: seq<Feature<P>>)

  /** `[annotation_to_geojson_format(ann) for ann in annotations]`, failing on the first empty one. */
  function Polygons<P>(annotations: seq<seq<P>>): (r: Result<seq<seq<seq<P>>>>)
    ensures r.Ok? <==> forall k :: 0 <= k < |annotations| ==> annotations[k] != []
    ensures r.Err? ==> r.error == NoFirstPoint
    ensures r.Ok? ==> |r.value| == |annotations|
    ensures r.Ok? ==> forall k :: 0 <= k < |annotations| ==> r.value[k] == AnnotationToGeojson(annotations[k]).value
    decreases |annotations|
  {
    if annotations == [] then Ok([])
    else
      var m := |annotations| - 1;
      match Polygons(annotations[..m])
      case Err(e) => Err(e)
      case Ok(before) =>
        match AnnotationToGeojson(annotations[m])
        case Err(e) => Err(e)
        case Ok(p) => Ok(before + [p])
  }

  /**
   * `ann_to_geojson`: a FeatureCollection holding one feature named 'Cell or ROI'
   * whose MultiPolygon has one closed polygon per annotation, in group order.
   */
  method AnnToGeojson<P>(groups: seq<AnnotationGroup<P>>) returns (r: Result<FeatureCollection<P>>)
    ensures r.Ok? <==> forall k :: 0 <= k < |Flatten(GraphicDataOf(groups))| ==> Flatten(GraphicDataOf(groups))[k] != []
    ensures r.Err? ==> r.error == NoFirstPoint
    ensures r.Ok? ==>
      && r.value.collectionType == "FeatureCollection"
      && |r.value.features| == 1
      && r.value.features[0].featureType == "Feature"
      && r.value.features[0].properties == map["name" := "Cell or ROI"]
      && r.value.features[0].geometry.geometryType == "MultiPolygon"
      && r.value.features[0].geometry.coordinates == Polygons(Flatten(GraphicDataOf(groups))).value
  {
    var annotations := GetAnnotations(groups);
    var polygons := Polygons(annotations);
    if polygons.Err? {
      return Err(polygons.error);
    }
    var feature := Feature("Feature", map[], Geometry("", []));
    feature := feature.(properties := map["name" := "Cell or ROI"]);
    feature := feature.(geometry := feature.geometry.(geometryType := "MultiPolygon"));
    feature := feature.(geometry := feature.geometry.(coordinates := polygons.value));
    r := Ok(FeatureCollection("FeatureCollection", [feature]));
  }

  /** The exported MultiPolygon holds exactly one polygon per annotation of the object. */
  lemma ExportCountsAnnotations<P>(groups: seq<AnnotationGroup<P>>)
    requires Polygons(Flatten(GraphicDataOf(groups))).Ok?
    ensures |Polygons(Flatten(GraphicDataOf(groups))).value| == AnnotationCount(groups)
  {
    AnnotationsCounted(groups);
  }
}
