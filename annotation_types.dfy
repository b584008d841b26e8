/**
 * The values the annotation pipeline passes between its stages: the annotation
 * records parsed from the input tables, and a plain-record form of the DICOM
 * Microscopy Bulk Simple Annotations objects it builds (annotation groups with
 * graphic data and measurements, and the series/instance stamping).
 */
module AnnotationTypes {
  import opened Wrappers

  /** A bounding box as the tables give it: xmin, ymin, xmax, ymax in slide pixels. */
  datatype Box = Box(xmin: int, ymin: int, xmax: int, ymax: int)

  /** The two annotation records of the current pipeline (`Union[CellAnnotation, ROIAnnotation]`). */
  datatype Annotation =
    | CellAnnotation(cellIdentifier: int, roiIdentifier: int, boundingBox: Box, cellLabel: string)
    | RoiAnnotation(identifier: int, boundingBox: Box)

  /** The single cell record of the older pipeline. */
  datatype LegacyCellAnnotation = LegacyCellAnnotation(identifier: int, boundingBox: Box, cellLabel: string)

  /** A point of two-dimensional graphic data in total-pixel-matrix coordinates. */
  datatype Coordinate = Coordinate(x: int, y: int)

  /** A point with exact rational coordinates (the older pipeline's centroids are not integral). */
  datatype RealCoordinate = RealCoordinate(x: real, y: real)

  /** The members of the graphic type enumeration of DICOM bulk annotations. */
  datatype GraphicType = Point | Polyline | Polygon | Ellipse | Rectangle

  function GraphicTypeName(t: GraphicType): string {
    match t
    case Point => "POINT"
    case Polyline => "POLYLINE"
    case Polygon => "POLYGON"
    case Ellipse => "ELLIPSE"
    case Rectangle => "RECTANGLE"
  }

  /** Look an enumeration member up by name; an unknown name raises KeyError. */
  function ParseGraphicType(name: string): (r: Result<GraphicType>)
    ensures r.Ok? ==> GraphicTypeName(r.value) == name
    ensures r.Err? <==> forall t :: GraphicTypeName(t) != name
    ensures r.Err? ==> r.error == KeyError(name)
  {
    if name == "POINT" then Ok(Point)
    else if name == "POLYLINE" then Ok(Polyline)
    else if name == "POLYGON" then Ok(Polygon)
    else if name == "ELLIPSE" then Ok(Ellipse)
    else if name == "RECTANGLE" then Ok(Rectangle)
    else Err(KeyError(name))
  }

  lemma ParseGraphicTypeName(t: GraphicType)
    ensures ParseGraphicType(GraphicTypeName(t)) == Ok(t)
  {
  }

  /** SCOORD stores graphic data in the 2D total pixel matrix, SCOORD3D in the 3D frame of reference. */
  datatype CoordinateType = Scoord | Scoord3d

  function CoordinateTypeName(t: CoordinateType): string {
    match t
    case Scoord => "SCOORD"
    case Scoord3d => "SCOORD3D"
  }

  function ParseCoordinateType(name: string): (r: Result<CoordinateType>)
    ensures r.Ok? ==> CoordinateTypeName(r.value) == name
    ensures r.Err? <==> forall t :: CoordinateTypeName(t) != name
    ensures r.Err? ==> r.error == KeyError(name)
  {
    if name == "SCOORD" then Ok(Scoord)
    else if name == "SCOORD3D" then Ok(Scoord3d)
    else Err(KeyError(name))
  }

  /** A coded concept: code value, coding scheme designator, code meaning. */
  datatype Code = Code(value: string, scheme: string, meaning: string)

  /** The annotated property category and type attached to a label. */
  datatype CodePair = CodePair(category: Code, propertyType: Code)

  /** A UID; the code creates each one fresh, so the model keeps them apart by number. */
  datatype Uid = Uid(n: nat)

  /** The concept names under which measurement values are stored. */
  datatype MeasurementName = CellIdentifier | RoiIdentifier | RefToRoiIdentifier | Area

  /** One measurement: a name and one value per annotation of its group. */
  datatype Measurements = Measurements(name: MeasurementName, values: seq<int>)

  datatype AnnotationGroup<P> = AnnotationGroup(
    number: nat,
    uid: Uid,
    groupLabel: string,
    codes: CodePair,
    graphicType: GraphicType,
    graphicData: seq<seq<P>>,
    measurements: seq<Measurements>)

  /** Data elements added to an object after construction. */
  datatype ExtraElement =
    | ClinicalTrialSeriesId(session: string)
    | OtherClinicalTrialProtocolIds

  datatype BulkAnnotations<P> = BulkAnnotations(
    coordinateType: CoordinateType,
    groups: seq<AnnotationGroup<P>>,
    seriesUid: Uid,
    seriesNumber: nat,
    sopInstanceUid: Uid,
    instanceNumber: int,
    extra: seq<ExtraElement>)

  /** Every measurement of a group holds exactly one value per annotation. */
  predicate Aligned<P>(g: AnnotationGroup<P>) {
    forall m :: m in g.measurements ==> |m.values| == |g.graphicData|
  }

  /** The values measured for annotation `j` of a group, one per measurement, in measurement order. */
  function MeasurementRow<P>(g: AnnotationGroup<P>, j: nat): (row: seq<int>)
    requires Aligned(g) && j < |g.graphicData|
    ensures |row| == |g.measurements|
    ensures forall c :: 0 <= c < |row| ==> row[c] == g.measurements[c].values[j]
  {
    seq(|g.measurements|, c requires 0 <= c < |g.measurements| => g.measurements[c].values[j])
  }

  /** The measurement table of a group: one row per annotation. */
  function MeasurementRows<P>(g: AnnotationGroup<P>): (rows: seq<seq<int>>)
    requires Aligned(g)
    ensures |rows| == |g.graphicData|
    ensures forall j :: 0 <= j < |rows| ==> rows[j] == MeasurementRow(g, j)
  {
    seq(|g.graphicData|, j requires 0 <= j < |g.graphicData| => MeasurementRow(g, j))
  }

  /** `[s[i] for i in indices]`. */
  function Pick<T>(s: seq<T>, indices: seq<nat>): (r: seq<T>)
    requires forall k :: 0 <= k < |indices| ==> indices[k] < |s|
    ensures |r| == |indices|
    ensures forall k :: 0 <= k < |r| ==> r[k] == s[indices[k]]
  {
    seq(|indices|, k requires 0 <= k < |indices| => s[indices[k]])
  }
}
