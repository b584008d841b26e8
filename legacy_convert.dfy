/**
 * The older converter: a box becomes a POLYGON (its four corners) or a POINT at its
 * exact centroid, with no crop offset; the cell object has one group per label of the
 * configured label list, visited in sorted order, each measuring the annotation
 * identifiers under the Area concept.
 */
module LegacyConvert {
  import opened Wrappers
  import opened Strings
  import opened Indices
  import opened AnnotationTypes
  import opened Convert

  predicate LegacySupported(t: GraphicType) {
    t == Polygon || t == Point
  }

  /** `(x, y)` is one of the four corners of `b`. */
  predicate IsCorner(p: RealCoordinate, b: Box) {
    && (p.x == b.xmin as real || p.x == b.xmax as real)
    && (p.y == b.ymin as real || p.y == b.ymax as real)
  }

  /** The exterior of `shapely.geometry.box(*b)` without its closing point. */
  function BoxCorners(b: Box): seq<RealCoordinate> {
    [RealCoordinate(b.xmax as real, b.ymin as real), RealCoordinate(b.xmax as real, b.ymax as real),
     RealCoordinate(b.xmin as real, b.ymax as real), RealCoordinate(b.xmin as real, b.ymin as real)]
  }

  /**
   * Graphic data of one annotation in the 2D total pixel matrix: four points that
   * are exactly the corners of the box, or the one centroid point.
   */
  function LegacyProcessAnnotation(ann: LegacyCellAnnotation, graphicType: GraphicType): (r: Result<seq<RealCoordinate>>)
    ensures r.Ok? <==> LegacySupported(graphicType)
    ensures r.Err? ==> r.error == NotSupported(graphicType)
    ensures graphicType == Polygon ==>
      var b := ann.boundingBox;
      && |r.value| == 4
      && (forall k :: 0 <= k < 4 ==> IsCorner(r.value[k], b))
      && RealCoordinate(b.xmin as real, b.ymin as real) in r.value
      && RealCoordinate(b.xmax as real, b.ymin as real) in r.value
      && RealCoordinate(b.xmax as real, b.ymax as real) in r.value
      && RealCoordinate(b.xmin as real, b.ymax as real) in r.value
    ensures graphicType == Point ==>
      && |r.value| == 1
      && 2.0 * r.value[0].x == (ann.boundingBox.xmin + ann.boundingBox.xmax) as real
      && 2.0 * r.value[0].y == (ann.boundingBox.ymin + ann.boundingBox.ymax) as real
  {
    var b := ann.boundingBox;
    if graphicType == Polygon then Ok(BoxCorners(b))
    else if graphicType == Point then
      Ok([RealCoordinate((b.xmin + b.xmax) as real / 2.0, (b.ymin + b.ymax) as real / 2.0)])
    else Err(NotSupported(graphicType))
  }

  /** The three aligned lists `get_graphic_data` returns. */
  datatype GraphicColumns = GraphicColumns(graphicData: seq<seq<RealCoordinate>>, identifiers: seq<int>, labels: seq<string>)

  /**
   * `get_graphic_data`: look up both type names, then process the annotations in
   * order, copying each identifier and label unchanged; the first failure is raised.
   */
  method LegacyGetGraphicData(annotations: seq<LegacyCellAnnotation>, graphicTypeName: string, coordinateTypeName: string)
    returns (r: Result<GraphicColumns>)
    ensures ParseGraphicType(graphicTypeName).Err? ==> r == Err(KeyError(graphicTypeName))
    ensures ParseGraphicType(graphicTypeName).Ok? && ParseCoordinateType(coordinateTypeName).Err? ==>
      r == Err(KeyError(coordinateTypeName))
    ensures r.Ok? <==>
      && ParseGraphicType(graphicTypeName).Ok? && ParseCoordinateType(coordinateTypeName).Ok?
      && (annotations == [] || LegacySupported(ParseGraphicType(graphicTypeName).value))
    ensures (&& ParseGraphicType(graphicTypeName).Ok? && ParseCoordinateType(coordinateTypeName).Ok?
             && annotations != [] && !LegacySupported(ParseGraphicType(graphicTypeName).value)) ==>
      r == Err(NotSupported(ParseGraphicType(graphicTypeName).value))
    ensures r.Ok? ==>
      && |r.value.graphicData| == |annotations| && |r.value.identifiers| == |annotations| && |r.value.labels| == |annotations|
      && forall i :: 0 <= i < |annotations| ==>
           r.value.identifiers[i] == annotations[i].identifier && r.value.labels[i] == annotations[i].cellLabel
    ensures r.Ok? && ParseCoordinateType(coordinateTypeName) == Ok(Scoord) ==>
      forall i :: 0 <= i < |annotations| ==>
        LegacyProcessAnnotation(annotations[i], ParseGraphicType(graphicTypeName).value) == Ok(r.value.graphicData[i])
  {
    var graphicType := ParseGraphicType(graphicTypeName);
    if graphicType.Err? {
      return Err(graphicType.error);
    }
    var coordinateType := ParseCoordinateType(coordinateTypeName);
    if coordinateType.Err? {
      return Err(coordinateType.error);
    }
    var graphicData: seq<seq<RealCoordinate>>, identifiers: seq<int>, labels: seq<string> := [], [], [];
    for i := 0 to |annotations|
      invariant |graphicData| == i && |identifiers| == i && |labels| == i
      invariant i > 0 ==> LegacySupported(graphicType.value)
      invariant forall k :: 0 <= k < i ==>
        && LegacyProcessAnnotation(annotations[k], graphicType.value) == Ok(graphicData[k])
        && identifiers[k] == annotations[k].identifier && labels[k] == annotations[k].cellLabel
    {
      var item := LegacyProcessAnnotation(annotations[i], graphicType.value);
      if item.Err? {
        return Err(item.error);
      }
      graphicData, identifiers, labels := graphicData + [item.value], identifiers + [annotations[i].identifier],
                                          labels + [annotations[i].cellLabel];
    }
    return Ok(GraphicColumns(graphicData, identifiers, labels));
  }

  // ---------------------------------------------------------------------------
  // Grouping by label

  /** Series number of the older pipeline's annotation object. */
  const LegacySeriesNumber := 204

  /**
   * The configured label table: parallel lists of labels, finding categories and
   * finding types (`labels_dict`).
   */
  datatype LabelsDict = LabelsDict(labels: seq<string>, categories: seq<Code>, types: seq<Code>)

  /** One emitted group: the position of its label in the sorted label list, the label, its annotations. */
  datatype LegacyGroupPlan = LegacyGroupPlan(labelIndex: nat, cellLabel: string, indices: seq<nat>)

  /** The annotations whose label is `name`. */
  function LabelIndices(labels: seq<string>, name: string): seq<nat> {
    Where(|labels|, LabelSetMask(labels, {name}))
  }

  /** The groups for the labels of `order`, visited in that order; a label without annotations gives none. */
  function LegacyPlan(order: seq<string>, labels: seq<string>): seq<LegacyGroupPlan>
    decreases |order|
  {
    if order == [] then []
    else
      var n := |order| - 1;
      LegacyPlan(order[..n], labels)
        + (if |LabelIndices(labels, order[n])| > 0 then [LegacyGroupPlan(n, order[n], LabelIndices(labels, order[n]))] else [])
  }

  /** A plan entry names a visited label and holds some annotations, all with that label. */
  predicate EntryWellFormed(p: LegacyGroupPlan, order: seq<string>, labels: seq<string>) {
    && p.labelIndex < |order| && order[p.labelIndex] == p.cellLabel
    && |p.indices| > 0
    && forall k :: 0 <= k < |p.indices| ==> p.indices[k] < |labels| && labels[p.indices[k]] == p.cellLabel
  }

  /**
   * Every group names the label at its position of the visited list and holds only
   * annotations with that label; positions strictly increase from group to group.
   */
  lemma {:induction false} LegacyPlanShape(order: seq<string>, labels: seq<string>)
    ensures var r := LegacyPlan(order, labels);
      && |r| <= |order|
      && (forall j :: 0 <= j < |r| ==> EntryWellFormed(r[j], order, labels))
      && (forall j, k :: 0 <= j < k < |r| ==> r[j].labelIndex < r[k].labelIndex)
    decreases |order|
  {
    if order != [] {
      var n := |order| - 1;
      LegacyPlanShape(order[..n], labels);
      var before := LegacyPlan(order[..n], labels);
      forall j | 0 <= j < |before| ensures EntryWellFormed(before[j], order, labels) {
        assert EntryWellFormed(before[j], order[..n], labels);
      }
    }
  }

  function LegacyIndexLists(plan: seq<LegacyGroupPlan>): (r: seq<seq<nat>>)
    ensures |r| == |plan| && forall j :: 0 <= j < |r| ==> r[j] == plan[j].indices
  {
    seq(|plan|, j requires 0 <= j < |plan| => plan[j].indices)
  }

  lemma LegacyIndexListsAppend(a: seq<LegacyGroupPlan>, b: seq<LegacyGroupPlan>)
    ensures Flatten(LegacyIndexLists(a + b)) == Flatten(LegacyIndexLists(a)) + Flatten(LegacyIndexLists(b))
  {
    assert LegacyIndexLists(a + b) == LegacyIndexLists(a) + LegacyIndexLists(b);
    FlattenAppend(LegacyIndexLists(a), LegacyIndexLists(b));
  }

  /** With a sorted label list, groups come in non-decreasing label order. */
  lemma LegacyPlanSorted(order: seq<string>, labels: seq<string>)
    requires Sorted(order)
    ensures var plan := LegacyPlan(order, labels);
      forall j, k :: 0 <= j < k < |plan| ==> !StrLess(plan[k].cellLabel, plan[j].cellLabel)
  {
    var plan := LegacyPlan(order, labels);
    LegacyPlanShape(order, labels);
    forall j, k | 0 <= j < k < |plan| ensures !StrLess(plan[k].cellLabel, plan[j].cellLabel) {
      assert EntryWellFormed(plan[j], order, labels) && EntryWellFormed(plan[k], order, labels);
      assert plan[j].labelIndex < plan[k].labelIndex;
    }
  }

  /**
   * Annotation `i` is in as many groups as its label occurs in the visited list: once
   * for a label listed once, never for a label the list does not hold.
   */
  lemma {:induction false} LegacyPlanCount(order: seq<string>, labels: seq<string>, i: nat)
    ensures multiset(Flatten<nat>(LegacyIndexLists(LegacyPlan(order, labels))))[i]
         == if i < |labels| then multiset(order)[labels[i]] else 0
    decreases |order|
  {
    if order != [] {
      var n := |order| - 1;
      LegacyPlanCount(order[..n], labels, i);
      LegacyPlanCountStep(order, labels, i);
    }
  }

  lemma LegacyPlanCountStep(order: seq<string>, labels: seq<string>, i: nat)
    requires order != []
    requires multiset(Flatten<nat>(LegacyIndexLists(LegacyPlan(order[..|order| - 1], labels))))[i]
          == if i < |labels| then multiset(order[..|order| - 1])[labels[i]] else 0
    ensures multiset(Flatten<nat>(LegacyIndexLists(LegacyPlan(order, labels))))[i]
         == if i < |labels| then multiset(order)[labels[i]] else 0
  {
    var n := |order| - 1;
    LegacyPlanStepAt(order, labels, i);
    if i < |labels| {
      MultisetSnocCount(order, labels[i]);
    }
  }

  /** Annotation `i` gains one group from the last visited label exactly when it carries that label. */
  lemma LegacyPlanStepAt(order: seq<string>, labels: seq<string>, i: nat)
    requires order != []
    ensures multiset(Flatten<nat>(LegacyIndexLists(LegacyPlan(order, labels))))[i]
         == multiset(Flatten<nat>(LegacyIndexLists(LegacyPlan(order[..|order| - 1], labels))))[i]
          + (if i < |labels| && labels[i] == order[|order| - 1] then 1 else 0)
  {
    var name := order[|order| - 1];
    LegacyPlanStep(order, labels);
    LabelIndicesCount(labels, name, i);
    CountOfConcat(Flatten<nat>(LegacyIndexLists(LegacyPlan(order[..|order| - 1], labels))), LabelIndices(labels, name), i);
  }

  lemma CountOfConcat<T>(a: seq<T>, b: seq<T>, x: T)
    ensures multiset(a + b)[x] == multiset(a)[x] + multiset(b)[x]
  {
  }

  /** Annotation `i` is listed once under its own label and never under another. */
  lemma LabelIndicesCount(labels: seq<string>, name: string, i: nat)
    ensures multiset(LabelIndices(labels, name))[i] == if i < |labels| && labels[i] == name then 1 else 0
  {
    SelectedOnce(LabelIndices(labels, name), labels, {name}, i);
    if i < |labels| {
      InSingleton(labels[i], name);
    }
  }

  lemma InSingleton<T>(x: T, y: T)
    ensures x in {y} <==> x == y
  {
  }

  lemma MultisetSnocCount<T>(s: seq<T>, x: T)
    requires s != []
    ensures multiset(s)[x] == multiset(s[..|s| - 1])[x] + (if s[|s| - 1] == x then 1 else 0)
  {
    assert s == s[..|s| - 1] + [s[|s| - 1]];
  }

  /** Visiting one more label adds exactly that label's annotations. */
  lemma LegacyPlanStep(order: seq<string>, labels: seq<string>)
    requires order != []
    ensures Flatten<nat>(LegacyIndexLists(LegacyPlan(order, labels)))
         == Flatten<nat>(LegacyIndexLists(LegacyPlan(order[..|order| - 1], labels)))
          + LabelIndices(labels, order[|order| - 1])
  {
    var n := |order| - 1;
    var before := LegacyPlan(order[..n], labels);
    var w := LabelIndices(labels, order[n]);
    var mine: seq<LegacyGroupPlan> := if |w| > 0 then [LegacyGroupPlan(n, order[n], w)] else [];
    assert LegacyPlan(order, labels) == before + mine;
    LegacyIndexListsAppend(before, mine);
    if |w| > 0 {
      var single: seq<seq<nat>> := [w];
      assert LegacyIndexLists(mine) == single;
      assert single[..0] == [];
      assert Flatten(single) == w;
    } else {
      assert LegacyIndexLists(mine) == [];
    }
  }

  /** The annotation group a plan entry becomes: its graphic data, and its identifiers as the Area values. */
  function LegacyGroup(
    number: nat, uid: Uid, p: LegacyGroupPlan, codes: CodePair, graphicType: GraphicType,
    graphicData: seq<seq<RealCoordinate>>, identifiers: seq<int>)
    : (g: AnnotationGroup<RealCoordinate>)
    requires forall k :: 0 <= k < |p.indices| ==> p.indices[k] < |graphicData| && p.indices[k] < |identifiers|
    ensures Aligned(g) && |g.graphicData| == |p.indices|
  {
    AnnotationGroup(number, uid, p.cellLabel, codes, graphicType, Pick(graphicData, p.indices),
                    [Measurements(Area, Pick(identifiers, p.indices))])
  }

  /** The groups the encoder plans for a list of labels: the label table's labels, sorted. */
  function LegacyPlanFor(table: LabelsDict, labels: seq<string>): seq<LegacyGroupPlan> {
    LegacyPlan(SortStrings(table.labels), labels)
  }

  /** Every planned group finds its codes in the label table. */
  predicate CodesOk(table: LabelsDict, labels: seq<string>) {
    var plan := LegacyPlanFor(table, labels);
    forall j :: 0 <= j < |plan| ==> CodesListed(table, plan[j].labelIndex)
  }

  /** The codes at position `labelIndex` of the category and type lists. */
  predicate CodesListed(table: LabelsDict, labelIndex: nat) {
    labelIndex < |table.categories| && labelIndex < |table.types|
  }

  function CodesAt(table: LabelsDict, labelIndex: nat): CodePair
    requires CodesListed(table, labelIndex)
  {
    CodePair(table.categories[labelIndex], table.types[labelIndex])
  }

  /** Group `g` is plan entry `p` at position `j`: number `j + 1`, UID `uidBase + j`, and the codes at its label position. */
  predicate GroupFollows(
    g: AnnotationGroup<RealCoordinate>, j: nat, p: LegacyGroupPlan, uidBase: nat, table: LabelsDict,
    graphicType: GraphicType, graphicData: seq<seq<RealCoordinate>>, identifiers: seq<int>)
  {
    && (forall k :: 0 <= k < |p.indices| ==> p.indices[k] < |graphicData| && p.indices[k] < |identifiers|)
    && CodesListed(table, p.labelIndex)
    && g == LegacyGroup(j + 1, Uid(uidBase + j), p, CodesAt(table, p.labelIndex), graphicType, graphicData, identifiers)
  }

  /** The groups are the plan's entries, in plan order. */
  predicate GroupsFollowLegacyPlan(
    groups: seq<AnnotationGroup<RealCoordinate>>, plan: seq<LegacyGroupPlan>, uidBase: nat, table: LabelsDict,
    graphicType: GraphicType, graphicData: seq<seq<RealCoordinate>>, identifiers: seq<int>)
  {
    && |groups| == |plan|
    && forall j :: 0 <= j < |plan| ==>
         GroupFollows(groups[j], j, plan[j], uidBase, table, graphicType, graphicData, identifiers)
  }

  lemma GroupsFollowSnoc(
    groups: seq<AnnotationGroup<RealCoordinate>>, plan: seq<LegacyGroupPlan>, g: AnnotationGroup<RealCoordinate>,
    p: LegacyGroupPlan, uidBase: nat, table: LabelsDict, graphicType: GraphicType,
    graphicData: seq<seq<RealCoordinate>>, identifiers: seq<int>)
    requires GroupsFollowLegacyPlan(groups, plan, uidBase, table, graphicType, graphicData, identifiers)
    requires GroupFollows(g, |groups|, p, uidBase, table, graphicType, graphicData, identifiers)
    ensures GroupsFollowLegacyPlan(groups + [g], plan + [p], uidBase, table, graphicType, graphicData, identifiers)
  {
    forall j | 0 <= j < |plan| + 1
      ensures GroupFollows((groups + [g])[j], j, (plan + [p])[j], uidBase, table, graphicType, graphicData, identifiers)
    {
      if j < |plan| {
        assert (groups + [g])[j] == groups[j] && (plan + [p])[j] == plan[j];
      }
    }
  }

  lemma PrefixAt<T>(a: seq<T>, b: seq<T>, j: nat)
    requires a <= b && j < |a|
    ensures j < |b| && b[j] == a[j]
  {
  }

  /**
   * `create_bulk_annotations`: one group per label of the sorted label list that has
   * annotations, numbered from 1, with the category and type found at the label's
   * position in the sorted list; a position past the end of those lists raises
   * IndexError. The object gets the next two UIDs, series number 204, instance
   * number 1, and the other-clinical-trial-protocol element.
   */
  method CreateBulkAnnotations(
    graphicData: seq<seq<RealCoordinate>>, identifiers: seq<int>, labels: seq<string>,
    graphicTypeName: string, coordinateTypeName: string, table: LabelsDict, uidBase: nat)
    returns (r: Result<BulkAnnotations<RealCoordinate>>)
    requires |graphicData| == |identifiers| == |labels|
    ensures ParseGraphicType(graphicTypeName).Err? ==> r == Err(KeyError(graphicTypeName))
    ensures ParseGraphicType(graphicTypeName).Ok? && ParseCoordinateType(coordinateTypeName).Err? ==>
      r == Err(KeyError(coordinateTypeName))
    ensures r.Ok? <==> && ParseGraphicType(graphicTypeName).Ok? && ParseCoordinateType(coordinateTypeName).Ok?
                       && CodesOk(table, labels)
    ensures ParseGraphicType(graphicTypeName).Ok? && ParseCoordinateType(coordinateTypeName).Ok? && r.Err? ==>
      r.error == IndexError("list index out of range")
    ensures r.Ok? ==>
      var plan := LegacyPlanFor(table, labels);
      && GroupsFollowLegacyPlan(r.value.groups, plan, uidBase, table, ParseGraphicType(graphicTypeName).value,
                                graphicData, identifiers)
      && r.value.coordinateType == ParseCoordinateType(coordinateTypeName).value
      && r.value.seriesUid == Uid(uidBase + |plan|) && r.value.seriesNumber == LegacySeriesNumber
      && r.value.sopInstanceUid == Uid(uidBase + |plan| + 1) && r.value.instanceNumber == 1
      && r.value.extra == [OtherClinicalTrialProtocolIds]
  {
    var graphicType := ParseGraphicType(graphicTypeName);
    if graphicType.Err? {
      return Err(graphicType.error);
    }
    var coordinateType := ParseCoordinateType(coordinateTypeName);
    if coordinateType.Err? {
      return Err(coordinateType.error);
    }
    var order := SortStrings(table.labels);
    ghost var plan := LegacyPlan(order, labels);
    var groups: seq<AnnotationGroup<RealCoordinate>> := [];
    for labelIndex := 0 to |order|
      invariant GroupsFollowLegacyPlan(groups, LegacyPlan(order[..labelIndex], labels), uidBase, table,
                                       graphicType.value, graphicData, identifiers)
      invariant LegacyPlan(order[..labelIndex], labels) <= plan
    {
      LegacyPlanPrefix(order, labelIndex + 1, labels);
      var next := AddLegacyGroup(groups, order, labelIndex, labels, table, graphicType.value, graphicData,
                                 identifiers, uidBase);
      if next.Err? {
        PrefixAt(LegacyPlan(order[..labelIndex + 1], labels), plan, |groups|);
        assert !CodesListed(table, plan[|groups|].labelIndex);
        assert plan == LegacyPlan(SortStrings(table.labels), labels);
        return Err(next.error);
      }
      groups := next.value;
    }
    assert order[..|order|] == order;
    return Ok(BulkAnnotations(coordinateType.value, groups, Uid(uidBase + |groups|), LegacySeriesNumber,
                              Uid(uidBase + |groups| + 1), 1, [OtherClinicalTrialProtocolIds]));
  }

  /**
   * One pass of the label loop: the label at `labelIndex` of the sorted list adds
   * its group when it has annotations, reading the codes at the same position; a
   * position past the end of the code lists raises IndexError.
   */
  method AddLegacyGroup(
    groups: seq<AnnotationGroup<RealCoordinate>>, order: seq<string>, labelIndex: nat, labels: seq<string>,
    table: LabelsDict, graphicType: GraphicType, graphicData: seq<seq<RealCoordinate>>, identifiers: seq<int>,
    uidBase: nat)
    returns (next: Result<seq<AnnotationGroup<RealCoordinate>>>)
    requires labelIndex < |order| && |graphicData| == |identifiers| == |labels|
    requires GroupsFollowLegacyPlan(groups, LegacyPlan(order[..labelIndex], labels), uidBase, table,
                                    graphicType, graphicData, identifiers)
    ensures next.Ok? ==>
      GroupsFollowLegacyPlan(next.value, LegacyPlan(order[..labelIndex + 1], labels), uidBase, table,
                             graphicType, graphicData, identifiers)
    ensures next.Err? ==>
      && next.error == IndexError("list index out of range")
      && |groups| < |LegacyPlan(order[..labelIndex + 1], labels)|
      && !CodesListed(table, LegacyPlan(order[..labelIndex + 1], labels)[|groups|].labelIndex)
  {
    ghost var before := LegacyPlan(order[..labelIndex], labels);
    var name := order[labelIndex];
    var indices := LabelIndices(labels, name);
    if |indices| == 0 {
      LegacyPlanSkips(order, labelIndex, labels);
      return Ok(groups);
    }
    var p := LegacyGroupPlan(labelIndex, name, indices);
    LegacyPlanAppends(order, labelIndex, labels);
    var category := PyIndex(table.categories, labelIndex);
    var propertyType := PyIndex(table.types, labelIndex);
    if category.Err? || propertyType.Err? {
      assert (before + [p])[|before|] == p;
      return Err(IndexError("list index out of range"));
    }
    var g := LegacyGroup(|groups| + 1, Uid(uidBase + |groups|), p, CodePair(category.value, propertyType.value),
                         graphicType, graphicData, identifiers);
    GroupsFollowSnoc(groups, before, g, p, uidBase, table, graphicType, graphicData, identifiers);
    return Ok(groups + [g]);
  }

  lemma LegacyPlanSnoc(order: seq<string>, i: nat, labels: seq<string>)
    requires i < |order|
    ensures LegacyPlan(order[..i + 1], labels)
         == LegacyPlan(order[..i], labels)
          + (if |LabelIndices(labels, order[i])| > 0 then [LegacyGroupPlan(i, order[i], LabelIndices(labels, order[i]))] else [])
  {
    assert order[..i + 1][..i] == order[..i];
  }

  /** A label with annotations adds its one group to the plan. */
  lemma LegacyPlanAppends(order: seq<string>, i: nat, labels: seq<string>)
    requires i < |order| && |LabelIndices(labels, order[i])| > 0
    ensures LegacyPlan(order[..i + 1], labels)
         == LegacyPlan(order[..i], labels) + [LegacyGroupPlan(i, order[i], LabelIndices(labels, order[i]))]
  {
    LegacyPlanSnoc(order, i, labels);
  }

  /** A label without annotations adds nothing to the plan. */
  lemma LegacyPlanSkips(order: seq<string>, i: nat, labels: seq<string>)
    requires i < |order| && |LabelIndices(labels, order[i])| == 0
    ensures LegacyPlan(order[..i + 1], labels) == LegacyPlan(order[..i], labels)
  {
    LegacyPlanSnoc(order, i, labels);
  }

  lemma {:induction false} LegacyPlanPrefix(order: seq<string>, t: nat, labels: seq<string>)
    requires t <= |order|
    ensures LegacyPlan(order[..t], labels) <= LegacyPlan(order, labels)
    decreases |order|
  {
    if t < |order| {
      var n := |order| - 1;
      LegacyPlanPrefix(order[..n], t, labels);
      assert order[..n][..t] == order[..t];
    } else {
      assert order[..t] == order;
    }
  }

  /** Sorting a sorted list changes nothing. */
  lemma SortStringsSorted(xs: seq<string>)
    requires Sorted(xs)
    ensures SortStrings(xs) == xs
  {
    SortStringsCorrect(xs);
    SortedUnique(SortStrings(xs), xs);
  }

  /**
   * When the configured labels are listed in sorted order, every group carries the
   * category and type listed beside its own label.
   */
  lemma LegacyCodesOwnLabel(table: LabelsDict, labels: seq<string>, j: nat)
    requires Sorted(table.labels)
    requires j < |LegacyPlan(SortStrings(table.labels), labels)|
    ensures var p := LegacyPlan(SortStrings(table.labels), labels)[j];
      p.labelIndex < |table.labels| && table.labels[p.labelIndex] == p.cellLabel
  {
    SortStringsSorted(table.labels);
    LegacyPlanShape(table.labels, labels);
    assert EntryWellFormed(LegacyPlan(table.labels, labels)[j], table.labels, labels);
  }

  /**
   * When they are not, a group can take the codes of another label: with labels
   * listed as ["b", "a"] and one annotation labelled "a", its group reads the codes
   * listed beside "b".
   */
  lemma LegacyCodesMisattributed(cb: Code, ca: Code)
    ensures var table := LabelsDict(["b", "a"], [cb, ca], [cb, ca]);
      var plan := LegacyPlan(SortStrings(table.labels), ["a"]);
      && |plan| == 1 && plan[0].cellLabel == "a"
      && CodesListed(table, plan[0].labelIndex) && CodesAt(table, plan[0].labelIndex) == CodePair(cb, cb)
  {
    var table := LabelsDict(["b", "a"], [cb, ca], [cb, ca]);
    assert StrLess("a", "b");
    assert SortStrings(table.labels) == ["a", "b"];
    assert LabelIndices(["a"], "a") == [0];
    assert LabelIndices(["a"], "b") == [];
    var ab: seq<string> := ["a", "b"];
    assert ab[..1] == ["a"];
    var a: seq<string> := ["a"];
    assert a[..0] == [];
  }

  /** `labels.index(name)`: the first position of `name` in the configured label list. */
  function IndexOfLabel(labels: seq<string>, name: string): (r: Option<nat>)
    ensures r.None? <==> name !in labels
    ensures r.Some? ==> r.value < |labels| && labels[r.value] == name
    ensures r.Some? ==> forall i :: 0 <= i < r.value ==> labels[i] != name
    decreases |labels|
  {
    if labels == [] then None
    else if labels[0] == name then Some(0)
    else match IndexOfLabel(labels[1..], name)
      case None => None
      case Some(i) => Some(i + 1)
  }

  /**
   * The intended lookup: the codes listed beside the group's own label, found by
   * the label's position in the configured list rather than in the sorted one.
   */
  function IntendedCodeIndex(table: LabelsDict, p: LegacyGroupPlan): Option<nat> {
    IndexOfLabel(table.labels, p.cellLabel)
  }

  /** Whatever order the labels are configured in, every group finds the position of its own label. */
  lemma IntendedCodesOwnLabel(table: LabelsDict, labels: seq<string>, j: nat)
    requires j < |LegacyPlanFor(table, labels)|
    ensures var p := LegacyPlanFor(table, labels)[j];
      && IntendedCodeIndex(table, p).Some?
      && table.labels[IntendedCodeIndex(table, p).value] == p.cellLabel
  {
    var order := SortStrings(table.labels);
    LegacyPlanShape(order, labels);
    var p := LegacyPlanFor(table, labels)[j];
    assert EntryWellFormed(p, order, labels);
    SortStringsCorrect(table.labels);
    assert p.cellLabel in multiset(order);
  }

  /** On a strictly sorted label list the as-written position and the intended one coincide. */
  lemma IntendedAgreesWhenSorted(table: LabelsDict, labels: seq<string>, j: nat)
    requires StrictlySorted(table.labels)
    requires j < |LegacyPlanFor(table, labels)|
    ensures IntendedCodeIndex(table, LegacyPlanFor(table, labels)[j]) == Some(LegacyPlanFor(table, labels)[j].labelIndex)
  {
    var p := LegacyPlanFor(table, labels)[j];
    assert Sorted(table.labels) by {
      forall a, b | 0 <= a < b < |table.labels| ensures !StrLess(table.labels[b], table.labels[a]) {
        StrLessAsymmetric(table.labels[a], table.labels[b]);
      }
    }
    LegacyCodesOwnLabel(table, labels, j);
    var i := p.labelIndex;
    var r := IndexOfLabel(table.labels, p.cellLabel);
    assert r.Some?;
  }
}
