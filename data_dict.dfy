/**
 * The `data` dictionary the conversion stages hand to each other. Every stage adds
 * and deletes keys of the same dictionary object in place, so it is a class whose one
 * field is the map from key to value.
 */
module DataDict {
  import opened AnnotationTypes

  /** The kinds of value the stages store under the keys of the dictionary. */
  datatype Value =
    | Text(text: string)
    | SourceImage(name: string)
    | Anns(anns: seq<Annotation>)
    | Graphics(graphics: seq<seq<Coordinate>>)
    | Ints(ints: seq<int>)
    | Texts(texts: seq<string>)
    | Dcm(dcm: BulkAnnotations<Coordinate>)
    | LegacyAnns(legacyAnns: seq<LegacyCellAnnotation>)
    | RealGraphics(realGraphics: seq<seq<RealCoordinate>>)
    | LegacyDcm(legacyDcm: BulkAnnotations<RealCoordinate>)

  const SlideIdKey := "slide_id"
  const SourceImageKey := "source_image"
  const AnnTypeKey := "ann_type"
  const AnnKey := "ann"
  const GraphicDataKey := "graphic_data"
  const IdentifiersKey := "identifiers"
  const CellIdentifiersKey := "cell_identifiers"
  const RoiIdentifiersKey := "roi_identifiers"
  const LabelsKey := "labels"
  const AnnDcmKey := "ann_dcm"

  class Data {
    var entries: map<string, Value>

    constructor (entries: map<string, Value>)
      ensures this.entries == entries
    {
      this.entries := entries;
    }

    /** `data[key] = v`. */
    method Put(key: string, v: Value)
      modifies this
      ensures entries == old(entries)[key := v]
    {
      entries := entries[key := v];
    }

    /** `del data[key]`; deleting a missing key would raise KeyError, which no caller does. */
    method Delete(key: string)
      requires key in entries
      modifies this
      ensures entries == old(entries) - {key}
    {
      entries := entries - {key};
    }
  }
}
