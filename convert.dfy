/**
 * The current converter: bounding boxes become graphic data (crop-offset shift,
 * then RECTANGLE corners or a floor-centre POINT), and annotation lists become the
 * groups of a ROI object or of a cell object.
 */
module Convert {
  import opened Wrappers
  import opened Strings
  import opened Indices
  import opened AnnotationTypes

  /** The crop origin OpenSlide reports for the slide (`openslide.bounds-x`, `openslide.bounds-y`). */
  datatype Bounds = Bounds(x: int, y: int)

  /** The box in the cropped image: the crop origin subtracted from every coordinate. */
  function ShiftBox(b: Box, bounds: Bounds): Box {
    Box(b.xmin - bounds.x, b.ymin - bounds.y, b.xmax - bounds.x, b.ymax - bounds.y)
  }

  function NotSupported(t: GraphicType): Exception {
    ValueError("Graphic type \"" + GraphicTypeName(t) + "\" not supported.")
  }

  predicate Supported(t: GraphicType) {
    t == Rectangle || t == Point
  }

  /** `c` is `lo + (hi - lo) // 2`: the midpoint of `lo` and `hi` rounded down. */
  predicate FloorMidpoint(c: int, lo: int, hi: int) {
    2 * c <= lo + hi <= 2 * c + 1
  }

  /** Graphic data of one annotation, in the 2D total pixel matrix. */
  function ProcessAnnotation(ann: Annotation, bounds: Bounds, graphicType: GraphicType): (r: Result<seq<Coordinate>>)
    ensures r.Ok? <==> Supported(graphicType)
    ensures r.Err? ==> r.error == NotSupported(graphicType)
    ensures graphicType == Rectangle ==>
      |r.value| == 4 &&
      forall k :: 0 <= k < 4 ==>
        r.value[k].x + bounds.x == (if k == 0 || k == 3 then ann.boundingBox.xmin else ann.boundingBox.xmax) &&
        r.value[k].y + bounds.y == (if k < 2 then ann.boundingBox.ymin else ann.boundingBox.ymax)
    ensures graphicType == Point ==>
      |r.value| == 1 &&
      FloorMidpoint(r.value[0].x, ann.boundingBox.xmin - bounds.x, ann.boundingBox.xmax - bounds.x) &&
      FloorMidpoint(r.value[0].y, ann.boundingBox.ymin - bounds.y, ann.boundingBox.ymax - bounds.y)
  {
    var b := ShiftBox(ann.boundingBox, bounds);
    if graphicType == Rectangle then
      Ok([Coordinate(b.xmin, b.ymin), Coordinate(b.xmax, b.ymin), Coordinate(b.xmax, b.ymax), Coordinate(b.xmin, b.ymax)])
    else if graphicType == Point then
      // Python's // rounds toward minus infinity; Dafny's / agrees for a positive divisor.
      Ok([Coordinate(b.xmin + (b.xmax - b.xmin) / 2, b.ymin + (b.ymax - b.ymin) / 2)])
    else
      Err(NotSupported(graphicType))
  }

  function Translate(b: Box, dx: int, dy: int): Box {
    Box(b.xmin + dx, b.ymin + dy, b.xmax + dx, b.ymax + dy)
  }

  function WithBox(ann: Annotation, b: Box): Annotation {
    match ann
    case CellAnnotation(c, roi, _, l) => CellAnnotation(c, roi, b, l)
    case RoiAnnotation(i, _) => RoiAnnotation(i, b)
  }

  /**
   * The crop offset is the only geometry: moving a box and the crop origin by the
   * same amount leaves the graphic data unchanged.
   */
  lemma ProcessAnnotationTranslation(ann: Annotation, bounds: Bounds, graphicType: GraphicType, dx: int, dy: int)
    ensures ProcessAnnotation(WithBox(ann, Translate(ann.boundingBox, dx, dy)), Bounds(bounds.x + dx, bounds.y + dy), graphicType)
         == ProcessAnnotation(ann, bounds, graphicType)
  {
    var b := ShiftBox(ann.boundingBox, bounds);
    var b' := ShiftBox(Translate(ann.boundingBox, dx, dy), Bounds(bounds.x + dx, bounds.y + dy));
    assert b' == b;
  }

  /** The POINT of a well-formed box lies inside the shifted box. */
  lemma PointInsideBox(ann: Annotation, bounds: Bounds)
    requires ann.boundingBox.xmin <= ann.boundingBox.xmax && ann.boundingBox.ymin <= ann.boundingBox.ymax
    ensures var p := ProcessAnnotation(ann, bounds, Point).value[0];
      var b := ShiftBox(ann.boundingBox, bounds);
      b.xmin <= p.x <= b.xmax && b.ymin <= p.y <= b.ymax
  {
  }

  /**
   * `get_graphic_data` for the 2D total pixel matrix: both type names are looked
   * up first, then each annotation is processed in order; the first failure is raised.
   */
  method GetGraphicData(annotations: seq<Annotation>, bounds: Bounds, graphicTypeName: string, coordinateTypeName: string)
    returns (r: Result<seq<seq<Coordinate>>>)
    ensures ParseGraphicType(graphicTypeName).Err? ==> r == Err(KeyError(graphicTypeName))
    ensures ParseGraphicType(graphicTypeName).Ok? && ParseCoordinateType(coordinateTypeName).Err? ==>
      r == Err(KeyError(coordinateTypeName))
    ensures r.Ok? <==>
      ParseGraphicType(graphicTypeName).Ok? && ParseCoordinateType(coordinateTypeName).Ok? &&
      (annotations == [] || Supported(ParseGraphicType(graphicTypeName).value))
    ensures (ParseGraphicType(graphicTypeName).Ok? && ParseCoordinateType(coordinateTypeName).Ok? &&
             annotations != [] && !Supported(ParseGraphicType(graphicTypeName).value)) ==>
      r == Err(NotSupported(ParseGraphicType(graphicTypeName).value))
    ensures r.Ok? ==> |r.value| == |annotations|
    ensures r.Ok? && ParseCoordinateType(coordinateTypeName) == Ok(Scoord) ==>
      forall i :: 0 <= i < |annotations| ==>
        ProcessAnnotation(annotations[i], bounds, ParseGraphicType(graphicTypeName).value) == Ok(r.value[i])
  {
    var graphicType := ParseGraphicType(graphicTypeName);
    if graphicType.Err? {
      return Err(graphicType.error);
    }
    var coordinateType := ParseCoordinateType(coordinateTypeName);
    if coordinateType.Err? {
      return Err(coordinateType.error);
    }
    var graphicData: seq<seq<Coordinate>> := [];
    for i := 0 to |annotations|
      invariant |graphicData| == i
      invariant i > 0 ==> Supported(graphicType.value)
      invariant forall k :: 0 <= k < i ==> ProcessAnnotation(annotations[k], bounds, graphicType.value) == Ok(graphicData[k])
    {
      var item := ProcessAnnotation(annotations[i], bounds, graphicType.value);
      if item.Err? {
        return Err(item.error);
      }
      graphicData := graphicData + [item.value];
    }
    return Ok(graphicData);
  }

  // ---------------------------------------------------------------------------
  // ROI object

  const RoiLabel := "region_of_interest"

  /** Series number of every annotation object of the current pipeline. */
  const AnnotationSeriesNumber := 33

  /**
   * The ROI object: one group holding every ROI, whose only measurement is the
   * ROI identifiers. The group takes UID `uidBase` and the object `uidBase + 1`.
   */
  function CreateBulkAnnotationsForRois(
    graphicData: seq<seq<Coordinate>>, identifiers: seq<int>, seriesUid: Uid, instanceNumber: int,
    graphicTypeName: string, coordinateTypeName: string, roiLabels: map<string, CodePair>, uidBase: nat)
    : (r: Result<BulkAnnotations<Coordinate>>)
    requires |identifiers| == |graphicData|
    ensures ParseGraphicType(graphicTypeName).Err? ==> r == Err(KeyError(graphicTypeName))
    ensures ParseGraphicType(graphicTypeName).Ok? && ParseCoordinateType(coordinateTypeName).Err? ==>
      r == Err(KeyError(coordinateTypeName))
    ensures r.Ok? <==>
      ParseGraphicType(graphicTypeName).Ok? && ParseCoordinateType(coordinateTypeName).Ok? && RoiLabel in roiLabels
    ensures ParseGraphicType(graphicTypeName).Ok? && ParseCoordinateType(coordinateTypeName).Ok? && RoiLabel !in roiLabels ==>
      r == Err(KeyError(RoiLabel))
    ensures r.Ok? ==>
      && |r.value.groups| == 1
      && var g := r.value.groups[0];
      && g.number == 1 && g.groupLabel == RoiLabel && g.codes == roiLabels[RoiLabel]
      && g.graphicType == ParseGraphicType(graphicTypeName).value
      && g.graphicData == graphicData
      && g.measurements == [Measurements(RoiIdentifier, identifiers)]
      && Aligned(g)
      && r.value.coordinateType == ParseCoordinateType(coordinateTypeName).value
      && r.value.seriesUid == seriesUid && r.value.seriesNumber == AnnotationSeriesNumber
      && r.value.instanceNumber == instanceNumber
      && g.uid == Uid(uidBase) && r.value.sopInstanceUid == Uid(uidBase + 1)
      && r.value.extra == []
  {
    var graphicType := ParseGraphicType(graphicTypeName);
    var coordinateType := ParseCoordinateType(coordinateTypeName);
    if graphicType.Err? then Err(graphicType.error)
    else if coordinateType.Err? then Err(coordinateType.error)
    else if RoiLabel !in roiLabels then Err(KeyError(RoiLabel))
    else
      var group := AnnotationGroup(
        1, Uid(uidBase), RoiLabel, roiLabels[RoiLabel], graphicType.value, graphicData,
        [Measurements(RoiIdentifier, identifiers)]);
      Ok(BulkAnnotations(
        coordinateType.value, [group], seriesUid, AnnotationSeriesNumber, Uid(uidBase + 1), instanceNumber, []))
  }

  // ---------------------------------------------------------------------------
  // Cell object

  /** `(labels == name) & (roi_identifiers != -1)` (or `== -1` when `inRoi` is false). */
  function LabelRoiMask(labels: seq<string>, roiIdentifiers: seq<int>, name: string, inRoi: bool): nat -> bool {
    (i: nat) => i < |labels| && i < |roiIdentifiers| && labels[i] == name && (roiIdentifiers[i] != -1) == inRoi
  }

  /** The cells whose name is one of `keys`, whatever their ROI. */
  function LabelSetMask(labels: seq<string>, keys: set<string>): nat -> bool {
    (i: nat) => i < |labels| && labels[i] in keys
  }

  /** One group the encoder emits: a name, which side of the ROI test, and the selected indices. */
  datatype GroupPlan = GroupPlan(cellLabel: string, inRoi: bool, indices: seq<nat>)

  /** The groups of one name: the in-ROI group, then the out-of-ROI group, each only if non-empty. */
  function LabelPlan(name: string, labels: seq<string>, roiIdentifiers: seq<int>): seq<GroupPlan> {
    var inside := Where(|labels|, LabelRoiMask(labels, roiIdentifiers, name, true));
    var outside := Where(|labels|, LabelRoiMask(labels, roiIdentifiers, name, false));
    (if |inside| > 0 then [GroupPlan(name, true, inside)] else [])
      + (if |outside| > 0 then [GroupPlan(name, false, outside)] else [])
  }

  /** The groups for the labels of `order`, visited in that order. */
  function Plan(order: seq<string>, labels: seq<string>, roiIdentifiers: seq<int>): (r: seq<GroupPlan>)
    requires |labels| == |roiIdentifiers|
    ensures |r| <= 2 * |order|
    ensures forall j :: 0 <= j < |r| ==>
      && r[j].cellLabel in order
      && |r[j].indices| > 0
      && forall k :: 0 <= k < |r[j].indices| ==>
           && r[j].indices[k] < |labels|
           && labels[r[j].indices[k]] == r[j].cellLabel
           && (roiIdentifiers[r[j].indices[k]] != -1) == r[j].inRoi
    decreases |order|
  {
    if order == [] then []
    else
      var prefix := order[..|order| - 1];
      var last := order[|order| - 1];
      var before := Plan(prefix, labels, roiIdentifiers);
      assert forall j :: 0 <= j < |before| ==> before[j].cellLabel in order by {
        forall j | 0 <= j < |before| ensures before[j].cellLabel in order {
          var x := before[j].cellLabel;
          assert x in prefix;
          var t :| 0 <= t < |prefix| && prefix[t] == x;
          assert order[t] == x;
        }
      }
      before + LabelPlan(last, labels, roiIdentifiers)
  }

  lemma PlanSnoc(order: seq<string>, i: nat, labels: seq<string>, roiIdentifiers: seq<int>)
    requires |labels| == |roiIdentifiers| && i < |order|
    ensures Plan(order[..i + 1], labels, roiIdentifiers)
         == Plan(order[..i], labels, roiIdentifiers) + LabelPlan(order[i], labels, roiIdentifiers)
  {
    assert order[..i + 1][..i] == order[..i];
  }

  /** The index lists of a plan, one per group. */
  function IndexLists(plan: seq<GroupPlan>): (r: seq<seq<nat>>)
    ensures |r| == |plan| && forall j :: 0 <= j < |r| ==> r[j] == plan[j].indices
  {
    seq(|plan|, j requires 0 <= j < |plan| => plan[j].indices)
  }

  function LabelSet(order: seq<string>): set<string> {
    set x | x in order
  }

  /** The groups of one name carry that name, and the in-ROI one comes first. */
  lemma LabelPlanShape(name: string, labels: seq<string>, roiIdentifiers: seq<int>)
    ensures var lp := LabelPlan(name, labels, roiIdentifiers);
      && |lp| <= 2
      && (forall t :: 0 <= t < |lp| ==> lp[t].cellLabel == name)
      && (|lp| == 2 ==> lp[0].inRoi && !lp[1].inRoi)
  {
  }

  /** The indices of the groups of one name are its in-ROI cells followed by its other cells. */
  lemma LabelPlanFlatten(name: string, labels: seq<string>, roiIdentifiers: seq<int>)
    ensures Flatten(IndexLists(LabelPlan(name, labels, roiIdentifiers)))
         == Where(|labels|, LabelRoiMask(labels, roiIdentifiers, name, true))
          + Where(|labels|, LabelRoiMask(labels, roiIdentifiers, name, false))
  {
    var inside := Where(|labels|, LabelRoiMask(labels, roiIdentifiers, name, true));
    var outside := Where(|labels|, LabelRoiMask(labels, roiIdentifiers, name, false));
    TwoGroupsFlatten(name, inside, outside);
  }

  /** The index lists of the (at most) two groups of a name, flattened. */
  lemma TwoGroupsFlatten(name: string, inside: seq<nat>, outside: seq<nat>)
    ensures Flatten(IndexLists((if |inside| > 0 then [GroupPlan(name, true, inside)] else [])
                               + (if |outside| > 0 then [GroupPlan(name, false, outside)] else [])))
         == inside + outside
  {
    var a: seq<seq<nat>> := if |inside| > 0 then [inside] else [];
    var b: seq<seq<nat>> := if |outside| > 0 then [outside] else [];
    assert IndexLists((if |inside| > 0 then [GroupPlan(name, true, inside)] else [])
                      + (if |outside| > 0 then [GroupPlan(name, false, outside)] else [])) == a + b;
    FlattenAppend(a, b);
    FlattenSingle(a, inside);
    FlattenSingle(b, outside);
  }

  lemma FlattenSingle(a: seq<seq<nat>>, x: seq<nat>)
    requires a == (if |x| > 0 then [x] else [])
    ensures Flatten(a) == x
  {
    if |x| > 0 {
      assert a[..0] == [];
    }
  }

  /**
   * Groups come label by label in the order visited, and a label's in-ROI group
   * comes before its out-of-ROI group.
   */
  lemma {:induction false} PlanOrder(order: seq<string>, labels: seq<string>, roiIdentifiers: seq<int>)
    requires StrictlySorted(order) && |labels| == |roiIdentifiers|
    ensures PlanOrdered(Plan(order, labels, roiIdentifiers))
    decreases |order|
  {
    if order != [] {
      var prefix := order[..|order| - 1];
      var last := order[|order| - 1];
      PlanOrder(prefix, labels, roiIdentifiers);
      LabelPlanShape(last, labels, roiIdentifiers);
      var before := Plan(prefix, labels, roiIdentifiers);
      forall j | 0 <= j < |before| ensures StrLess(before[j].cellLabel, last) {
        var t :| 0 <= t < |prefix| && prefix[t] == before[j].cellLabel;
        assert StrLess(order[t], order[|order| - 1]);
      }
      AppendOrdered(before, LabelPlan(last, labels, roiIdentifiers), last);
    }
  }

  predicate PlanOrdered(plan: seq<GroupPlan>) {
    forall j, k :: 0 <= j < k < |plan| ==> PlanPrecedes(plan[j], plan[k])
  }

  /** Appending the groups of a name greater than every name so far keeps a plan ordered. */
  lemma AppendOrdered(before: seq<GroupPlan>, mine: seq<GroupPlan>, last: string)
    requires PlanOrdered(before)
    requires forall j :: 0 <= j < |before| ==> StrLess(before[j].cellLabel, last)
    requires |mine| <= 2 && forall t :: 0 <= t < |mine| ==> mine[t].cellLabel == last
    requires |mine| == 2 ==> mine[0].inRoi && !mine[1].inRoi
    ensures PlanOrdered(before + mine)
  {
    var plan := before + mine;
    forall j, k | 0 <= j < k < |plan| ensures PlanPrecedes(plan[j], plan[k]) {
      if k < |before| {
        assert plan[j] == before[j] && plan[k] == before[k];
      } else if j >= |before| {
        assert plan[j] == mine[0] && plan[k] == mine[1];
      } else {
        assert plan[j] == before[j] && plan[k] == mine[k - |before|];
      }
    }
  }

  /** Group `g` may come before group `h`. */
  predicate PlanPrecedes(g: GroupPlan, h: GroupPlan) {
    || StrLess(g.cellLabel, h.cellLabel)
    || (g.cellLabel == h.cellLabel && g.inRoi && !h.inRoi)
  }

  lemma LabelPlanIndices(name: string, labels: seq<string>, roiIdentifiers: seq<int>)
    requires |labels| == |roiIdentifiers|
    ensures multiset(Flatten<nat>(IndexLists(LabelPlan(name, labels, roiIdentifiers))))
         == multiset(Where(|labels|, LabelSetMask(labels, {name})))
  {
    var n := |labels|;
    LabelPlanFlatten(name, labels, roiIdentifiers);
    WhereSplit(n, LabelRoiMask(labels, roiIdentifiers, name, true), LabelRoiMask(labels, roiIdentifiers, name, false),
               LabelSetMask(labels, {name}));
  }

  /**
   * The groups partition the annotations whose label was visited: together they
   * list exactly those indices, each once.
   */
  lemma {:induction false} PlanPartition(order: seq<string>, labels: seq<string>, roiIdentifiers: seq<int>)
    requires StrictlySorted(order) && |labels| == |roiIdentifiers|
    ensures multiset(Flatten<nat>(IndexLists(Plan(order, labels, roiIdentifiers))))
         == multiset(Where(|labels|, LabelSetMask(labels, LabelSet(order))))
    decreases |order|
  {
    if order == [] {
      NoLabelsNoCells(labels, LabelSet(order));
    } else {
      var prefix := order[..|order| - 1];
      var last := order[|order| - 1];
      PlanPartition(prefix, labels, roiIdentifiers);
      LabelPlanIndices(last, labels, roiIdentifiers);
      var before := Plan(prefix, labels, roiIdentifiers);
      var mine := LabelPlan(last, labels, roiIdentifiers);
      FlattenIndexListsAppend(before, mine);
      LastIsNew(order);
      MaskAddLabel(labels, LabelSet(prefix), last);
    }
  }

  lemma NoLabelsNoCells(labels: seq<string>, keys: set<string>)
    requires keys == {}
    ensures Where(|labels|, LabelSetMask(labels, keys)) == []
  {
  }

  lemma FlattenIndexListsAppend(a: seq<GroupPlan>, b: seq<GroupPlan>)
    ensures Flatten(IndexLists(a + b)) == Flatten(IndexLists(a)) + Flatten(IndexLists(b))
  {
    assert IndexLists(a + b) == IndexLists(a) + IndexLists(b);
    FlattenAppend(IndexLists(a), IndexLists(b));
  }

  /** The last name of a strictly sorted list is new, and adds itself to the set of names. */
  lemma LastIsNew(order: seq<string>)
    requires StrictlySorted(order) && order != []
    ensures order[|order| - 1] !in LabelSet(order[..|order| - 1])
    ensures LabelSet(order) == LabelSet(order[..|order| - 1]) + {order[|order| - 1]}
  {
    var prefix := order[..|order| - 1];
    var last := order[|order| - 1];
    if last in prefix {
      var t :| 0 <= t < |prefix| && prefix[t] == last;
      assert StrLess(order[t], order[|order| - 1]);
      StrLessIrreflexive(last);
    }
    assert order == prefix + [last];
  }

  lemma MaskAddLabel(labels: seq<string>, keys: set<string>, name: string)
    requires name !in keys
    ensures multiset(Where(|labels|, LabelSetMask(labels, keys + {name})))
         == multiset(Where(|labels|, LabelSetMask(labels, keys))) + multiset(Where(|labels|, LabelSetMask(labels, {name})))
  {
    WhereSplit(|labels|, LabelSetMask(labels, keys), LabelSetMask(labels, {name}), LabelSetMask(labels, keys + {name}));
  }

  /**
   * Every annotation whose label is a key of the label table is in exactly one cell
   * group; an annotation with any other label is in none.
   */
  lemma {:induction false} CellGroupsPartition(cellLabels: map<string, CodePair>, labels: seq<string>, roiIdentifiers: seq<int>, i: nat)
    requires |labels| == |roiIdentifiers|
    ensures multiset(Flatten<nat>(IndexLists(Plan(SortedSet(cellLabels.Keys), labels, roiIdentifiers))))[i]
         == if i < |labels| && labels[i] in cellLabels then 1 else 0
  {
    var order := SortedSet(cellLabels.Keys);
    assert LabelSet(order) == cellLabels.Keys;
    PlanCoversOnce(order, labels, roiIdentifiers, i);
  }

  lemma {:induction false} PlanCoversOnce(order: seq<string>, labels: seq<string>, roiIdentifiers: seq<int>, i: nat)
    requires StrictlySorted(order) && |labels| == |roiIdentifiers|
    ensures multiset(Flatten<nat>(IndexLists(Plan(order, labels, roiIdentifiers))))[i]
         == if i < |labels| && labels[i] in LabelSet(order) then 1 else 0
  {
    PlanPartition(order, labels, roiIdentifiers);
    SelectedOnce(Flatten(IndexLists(Plan(order, labels, roiIdentifiers))), labels, LabelSet(order), i);
  }

  lemma SelectedOnce(flat: seq<nat>, labels: seq<string>, keys: set<string>, i: nat)
    requires multiset(flat) == multiset(Where(|labels|, LabelSetMask(labels, keys)))
    ensures multiset(flat)[i] == if i < |labels| && labels[i] in keys then 1 else 0
  {
    WhereOnce(|labels|, LabelSetMask(labels, keys), i);
  }

  /** The measurements of a cell group: cell ids, plus the ROI references for in-ROI groups. */
  function CellMeasurements(p: GroupPlan, cellIdentifiers: seq<int>, roiIdentifiers: seq<int>): seq<Measurements>
    requires forall k :: 0 <= k < |p.indices| ==> p.indices[k] < |cellIdentifiers| && p.indices[k] < |roiIdentifiers|
  {
    if p.inRoi then
      [Measurements(CellIdentifier, Pick(cellIdentifiers, p.indices)),
       Measurements(RefToRoiIdentifier, Pick(roiIdentifiers, p.indices))]
    else
      [Measurements(CellIdentifier, Pick(cellIdentifiers, p.indices))]
  }

  /** The annotation group a plan entry becomes, with its number and UID. */
  function CellGroup(
    number: nat, uid: Uid, p: GroupPlan, codes: CodePair, graphicType: GraphicType,
    graphicData: seq<seq<Coordinate>>, cellIdentifiers: seq<int>, roiIdentifiers: seq<int>)
    : (g: AnnotationGroup<Coordinate>)
    requires forall k :: 0 <= k < |p.indices| ==>
      p.indices[k] < |graphicData| && p.indices[k] < |cellIdentifiers| && p.indices[k] < |roiIdentifiers|
  {
    AnnotationGroup(
      number, uid, p.cellLabel, codes, graphicType, Pick(graphicData, p.indices),
      CellMeasurements(p, cellIdentifiers, roiIdentifiers))
  }

  /** Each of the cell groups holds exactly one measurement value per annotation, and is not empty. */
  lemma CellGroupAligned(
    number: nat, uid: Uid, p: GroupPlan, codes: CodePair, graphicType: GraphicType,
    graphicData: seq<seq<Coordinate>>, cellIdentifiers: seq<int>, roiIdentifiers: seq<int>)
    requires forall k :: 0 <= k < |p.indices| ==>
      p.indices[k] < |graphicData| && p.indices[k] < |cellIdentifiers| && p.indices[k] < |roiIdentifiers|
    ensures Aligned(CellGroup(number, uid, p, codes, graphicType, graphicData, cellIdentifiers, roiIdentifiers))
  {
  }

  predicate IndicesBelow(p: GroupPlan, n: nat) {
    forall k :: 0 <= k < |p.indices| ==> p.indices[k] < n
  }

  /** Group `j` is plan entry `j` with number `j + 1` and UID `uidBase + j`. */
  predicate GroupsFollowPlan(
    groups: seq<AnnotationGroup<Coordinate>>, plan: seq<GroupPlan>, uidBase: nat, cellLabels: map<string, CodePair>,
    graphicType: GraphicType, graphicData: seq<seq<Coordinate>>, cellIdentifiers: seq<int>, roiIdentifiers: seq<int>)
    requires |graphicData| == |cellIdentifiers| == |roiIdentifiers|
  {
    && |groups| == |plan|
    && forall j :: 0 <= j < |plan| ==>
         && IndicesBelow(plan[j], |graphicData|)
         && plan[j].cellLabel in cellLabels
         && groups[j] == CellGroup(
              j + 1, Uid(uidBase + j), plan[j], cellLabels[plan[j].cellLabel],
              graphicType, graphicData, cellIdentifiers, roiIdentifiers)
  }

  lemma FollowPlanAppend(
    groups: seq<AnnotationGroup<Coordinate>>, plan: seq<GroupPlan>, p: GroupPlan, uidBase: nat,
    cellLabels: map<string, CodePair>, graphicType: GraphicType, graphicData: seq<seq<Coordinate>>,
    cellIdentifiers: seq<int>, roiIdentifiers: seq<int>)
    requires |graphicData| == |cellIdentifiers| == |roiIdentifiers|
    requires GroupsFollowPlan(groups, plan, uidBase, cellLabels, graphicType, graphicData, cellIdentifiers, roiIdentifiers)
    requires IndicesBelow(p, |graphicData|) && p.cellLabel in cellLabels
    ensures GroupsFollowPlan(
      groups + [CellGroup(|groups| + 1, Uid(uidBase + |groups|), p, cellLabels[p.cellLabel],
                          graphicType, graphicData, cellIdentifiers, roiIdentifiers)],
      plan + [p], uidBase, cellLabels, graphicType, graphicData, cellIdentifiers, roiIdentifiers)
  {
  }

  /** `if len(indices) > 0: groups.append(...); group_number += 1` for one plan entry. */
  method AddGroupIfNonEmpty(
    groups: seq<AnnotationGroup<Coordinate>>, ghost plan: seq<GroupPlan>, p: GroupPlan,
    uidBase: nat, cellLabels: map<string, CodePair>, graphicType: GraphicType, graphicData: seq<seq<Coordinate>>,
    cellIdentifiers: seq<int>, roiIdentifiers: seq<int>)
    returns (groups': seq<AnnotationGroup<Coordinate>>)
    requires |graphicData| == |cellIdentifiers| == |roiIdentifiers|
    requires IndicesBelow(p, |graphicData|) && p.cellLabel in cellLabels
    requires GroupsFollowPlan(groups, plan, uidBase, cellLabels, graphicType, graphicData, cellIdentifiers, roiIdentifiers)
    ensures GroupsFollowPlan(groups', plan + (if |p.indices| > 0 then [p] else []), uidBase, cellLabels,
                             graphicType, graphicData, cellIdentifiers, roiIdentifiers)
  {
    var groupNumber := |groups| + 1;
    if |p.indices| > 0 {
      FollowPlanAppend(groups, plan, p, uidBase, cellLabels, graphicType, graphicData, cellIdentifiers, roiIdentifiers);
      groups' := groups + [CellGroup(groupNumber, Uid(uidBase + groupNumber - 1), p, cellLabels[p.cellLabel],
                                     graphicType, graphicData, cellIdentifiers, roiIdentifiers)];
    } else {
      groups' := groups;
      assert plan + [] == plan;
    }
  }

  /** One pass of the label loop: the label's in-ROI group, then its out-of-ROI group. */
  method AddLabelGroups(
    groups: seq<AnnotationGroup<Coordinate>>, ghost plan: seq<GroupPlan>, name: string, labels: seq<string>,
    uidBase: nat, cellLabels: map<string, CodePair>, graphicType: GraphicType, graphicData: seq<seq<Coordinate>>,
    cellIdentifiers: seq<int>, roiIdentifiers: seq<int>)
    returns (groups': seq<AnnotationGroup<Coordinate>>)
    requires |graphicData| == |cellIdentifiers| == |roiIdentifiers| == |labels|
    requires name in cellLabels
    requires GroupsFollowPlan(groups, plan, uidBase, cellLabels, graphicType, graphicData, cellIdentifiers, roiIdentifiers)
    ensures GroupsFollowPlan(groups', plan + LabelPlan(name, labels, roiIdentifiers), uidBase, cellLabels,
                             graphicType, graphicData, cellIdentifiers, roiIdentifiers)
  {
    var inside := GroupPlan(name, true, Where(|labels|, LabelRoiMask(labels, roiIdentifiers, name, true)));
    var withInside := AddGroupIfNonEmpty(groups, plan, inside, uidBase, cellLabels, graphicType, graphicData,
                                         cellIdentifiers, roiIdentifiers);
    ghost var plan' := plan + (if |inside.indices| > 0 then [inside] else []);
    var outside := GroupPlan(name, false, Where(|labels|, LabelRoiMask(labels, roiIdentifiers, name, false)));
    groups' := AddGroupIfNonEmpty(withInside, plan', outside, uidBase, cellLabels, graphicType, graphicData,
                                  cellIdentifiers, roiIdentifiers);
    assert plan' + (if |outside.indices| > 0 then [outside] else []) == plan + LabelPlan(name, labels, roiIdentifiers);
  }

  /**
   * The cell object for one annotation session. Labels are visited in sorted
   * order (labels that are not keys of `cellLabels` are never visited), each label
   * giving its in-ROI group and then its out-of-ROI group when non-empty. Group `j`
   * has number `j + 1` and UID `uidBase + j`; the object takes the next UID.
   */
  method CreateBulkAnnotationsForCells(
    graphicData: seq<seq<Coordinate>>, cellIdentifiers: seq<int>, roiIdentifiers: seq<int>, labels: seq<string>,
    annSession: string, seriesUid: Uid, instanceNumber: int, graphicTypeName: string, coordinateTypeName: string,
    cellLabels: map<string, CodePair>, uidBase: nat)
    returns (r: Result<BulkAnnotations<Coordinate>>)
    requires |graphicData| == |cellIdentifiers| == |roiIdentifiers| == |labels|
    ensures ParseGraphicType(graphicTypeName).Err? ==> r == Err(KeyError(graphicTypeName))
    ensures ParseGraphicType(graphicTypeName).Ok? && ParseCoordinateType(coordinateTypeName).Err? ==>
      r == Err(KeyError(coordinateTypeName))
    ensures r.Ok? <==> ParseGraphicType(graphicTypeName).Ok? && ParseCoordinateType(coordinateTypeName).Ok?
    ensures r.Ok? ==>
      var plan := Plan(SortedSet(cellLabels.Keys), labels, roiIdentifiers);
      && GroupsFollowPlan(r.value.groups, plan, uidBase, cellLabels, ParseGraphicType(graphicTypeName).value,
                          graphicData, cellIdentifiers, roiIdentifiers)
      && r.value.coordinateType == ParseCoordinateType(coordinateTypeName).value
      && r.value.seriesUid == seriesUid && r.value.seriesNumber == AnnotationSeriesNumber
      && r.value.instanceNumber == instanceNumber
      && r.value.sopInstanceUid == Uid(uidBase + |plan|)
      && r.value.extra == [ClinicalTrialSeriesId(annSession)]
  {
    var graphicType := ParseGraphicType(graphicTypeName);
    if graphicType.Err? {
      return Err(graphicType.error);
    }
    var coordinateType := ParseCoordinateType(coordinateTypeName);
    if coordinateType.Err? {
      return Err(coordinateType.error);
    }
    var order := SortedKeys(cellLabels.Keys);
    var groups: seq<AnnotationGroup<Coordinate>> := [];
    for i := 0 to |order|
      invariant GroupsFollowPlan(groups, Plan(order[..i], labels, roiIdentifiers), uidBase, cellLabels,
                                 graphicType.value, graphicData, cellIdentifiers, roiIdentifiers)
    {
      PlanSnoc(order, i, labels, roiIdentifiers);
      groups := AddLabelGroups(groups, Plan(order[..i], labels, roiIdentifiers), order[i], labels, uidBase, cellLabels,
                               graphicType.value, graphicData, cellIdentifiers, roiIdentifiers);
    }
    assert order[..|order|] == order;
    return Ok(BulkAnnotations(
      coordinateType.value, groups, seriesUid, AnnotationSeriesNumber, Uid(uidBase + |groups|), instanceNumber,
      [ClinicalTrialSeriesId(annSession)]));
  }
}
