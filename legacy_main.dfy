/**
 * The entry point of the older pipeline: one cell object per slide folder that has
 * cell rows, built by four stages that share one data dict (parse the rows, project
 * the boxes, encode, save), with the first failing stage's None making the next
 * stage raise.
 */
module LegacyMain {
  import opened Wrappers
  import opened Strings
  import opened AnnotationTypes
  import opened DataDict
  import opened DataUtils
  import opened LegacyConvert
  import opened SourceImage
  import opened RunConversion

  /**
   * A row of the merged cell table: the cell columns, and the slide id the ROI table
   * gives the cell's ROI (None when the left join found no ROI).
   */
  datatype LegacyRow = LegacyRow(
    cellId: int, xInSlide: int, yInSlide: int, cellWidth: int, cellHeight: int,
    allOriginalAnnotations: string, slideId: Option<string>)

  /** A slide folder of the older layout: its name and its files. */
  datatype LegacyFolder = LegacyFolder(slideId: string, levels: seq<Level>)

  /** An object written by `save_annotations`, with its file name. */
  datatype LegacySaved = LegacySaved(path: string, dcm: BulkAnnotations<RealCoordinate>)

  // ---------------------------------------------------------------------------
  // Rows to records

  /** The first entry of the comma-separated annotation list. */
  function FirstLabel(annotations: string): string {
    Split(annotations, ',')[0]
  }

  /** The first label holds no comma and is the list itself or the part before its first comma. */
  lemma FirstLabelLeads(annotations: string)
    ensures ',' !in FirstLabel(annotations)
    ensures annotations == FirstLabel(annotations) || StartsWith(annotations, FirstLabel(annotations) + [','])
  {
    var parts := Split(annotations, ',');
    JoinSplit(annotations, ',');
    if |parts| > 1 {
      assert Join(parts, ',') == parts[0] + [','] + Join(parts[1..], ',');
      assert annotations[..|parts[0]| + 1] == parts[0] + [','];
    }
  }

  /** Box `(x, y, x + width, y + height)`, identifier `cell_id`, and the first label. */
  function LegacyFromRow(row: LegacyRow): LegacyCellAnnotation {
    LegacyCellAnnotation(
      row.cellId,
      Box(row.xInSlide, row.yInSlide, row.xInSlide + row.cellWidth, row.yInSlide + row.cellHeight),
      FirstLabel(row.allOriginalAnnotations))
  }

  /** The records of a slide's rows, in row order. */
  function LegacyAnnotationsOf(rows: seq<LegacyRow>): seq<LegacyCellAnnotation> {
    seq(|rows|, i requires 0 <= i < |rows| => LegacyFromRow(rows[i]))
  }

  /**
   * The record keeps the row's origin and size and its identifier, and takes the
   * first label of the list.
   */
  lemma LegacyFromRowKeeps(row: LegacyRow)
    ensures var a := LegacyFromRow(row);
      && a.identifier == row.cellId
      && a.boundingBox.xmin == row.xInSlide && a.boundingBox.ymin == row.yInSlide
      && a.boundingBox.xmax - a.boundingBox.xmin == row.cellWidth
      && a.boundingBox.ymax - a.boundingBox.ymin == row.cellHeight
      && ',' !in a.cellLabel
      && (row.allOriginalAnnotations == a.cellLabel || StartsWith(row.allOriginalAnnotations, a.cellLabel + [',']))
  {
    FirstLabelLeads(row.allOriginalAnnotations);
  }

  /** `parse_annotations`: one record per row, in row order, stored under 'ann'. */
  method ParseLegacyAnnotations(data: Data, rows: seq<LegacyRow>)
    modifies data
    ensures data.entries == old(data.entries)[AnnKey := LegacyAnns(LegacyAnnotationsOf(rows))]
  {
    var ann := [];
    for i := 0 to |rows|
      invariant ann == LegacyAnnotationsOf(rows[..i])
    {
      ann := ann + [LegacyFromRow(rows[i])];
    }
    assert rows[..|rows|] == rows;
    data.Put(AnnKey, LegacyAnns(ann));
  }

  // ---------------------------------------------------------------------------
  // Graphic stage

  /** The type names are known and the graphic type is one the older converter draws. */
  predicate LegacyNamesOk(graphicTypeName: string, coordinateTypeName: string) {
    && ParseGraphicType(graphicTypeName).Ok? && ParseCoordinateType(coordinateTypeName).Ok?
    && LegacySupported(ParseGraphicType(graphicTypeName).value)
  }

  /** The graphic data of each record: its corners or its centroid. */
  function LegacyGraphics(anns: seq<LegacyCellAnnotation>, graphicType: GraphicType): seq<seq<RealCoordinate>>
    requires LegacySupported(graphicType)
  {
    seq(|anns|, i requires 0 <= i < |anns| => LegacyProcessAnnotation(anns[i], graphicType).value)
  }

  function LegacyIdentifiers(anns: seq<LegacyCellAnnotation>): seq<int> {
    seq(|anns|, i requires 0 <= i < |anns| => anns[i].identifier)
  }

  function LegacyLabels(anns: seq<LegacyCellAnnotation>): seq<string> {
    seq(|anns|, i requires 0 <= i < |anns| => anns[i].cellLabel)
  }

  /** The dictionary holds what the older encoder reads, aligned. */
  predicate LegacyReady(e: map<string, Value>) {
    && GraphicDataKey in e && e[GraphicDataKey].RealGraphics?
    && IdentifiersKey in e && e[IdentifiersKey].Ints?
    && LabelsKey in e && e[LabelsKey].Texts?
    && |e[IdentifiersKey].ints| == |e[GraphicDataKey].realGraphics|
    && |e[LabelsKey].texts| == |e[GraphicDataKey].realGraphics|
  }

  /**
   * `parse_annotations_to_graphic_data` of the older entry point: an error of
   * `get_graphic_data` is logged and None returned with the dictionary untouched;
   * otherwise 'ann' is deleted and the three aligned lists are stored.
   */
  method LegacyParseToGraphicData(data: Data, graphicTypeName: string, coordinateTypeName: string)
    returns (r: Outcome)
    requires AnnKey in data.entries && data.entries[AnnKey].LegacyAnns?
    modifies data
    ensures !r.Raised?
    ensures var anns := old(data.entries[AnnKey].legacyAnns);
      r.Returned? <==> && ParseGraphicType(graphicTypeName).Ok? && ParseCoordinateType(coordinateTypeName).Ok?
                       && (anns == [] || LegacySupported(ParseGraphicType(graphicTypeName).value))
    ensures r.ReturnedNone? ==> data.entries == old(data.entries)
    ensures r.Returned? ==> LegacyReady(data.entries)
    ensures r.Returned? ==> var anns := old(data.entries[AnnKey].legacyAnns);
      && data.entries == (old(data.entries) - {AnnKey})[GraphicDataKey := data.entries[GraphicDataKey]]
                            [IdentifiersKey := Ints(LegacyIdentifiers(anns))][LabelsKey := Texts(LegacyLabels(anns))]
      && (anns != [] && ParseCoordinateType(coordinateTypeName) == Ok(Scoord) ==>
            data.entries[GraphicDataKey] == RealGraphics(LegacyGraphics(anns, ParseGraphicType(graphicTypeName).value)))
  {
    var anns := data.entries[AnnKey].legacyAnns;
    var columns := LegacyGetGraphicData(anns, graphicTypeName, coordinateTypeName);
    if columns.Err? {
      return ReturnedNone(columns.error);
    }
    var c := columns.value;
    assert c.identifiers == LegacyIdentifiers(anns) && c.labels == LegacyLabels(anns);
    if anns != [] && ParseCoordinateType(coordinateTypeName) == Ok(Scoord) {
      assert c.graphicData == LegacyGraphics(anns, ParseGraphicType(graphicTypeName).value);
    }
    data.Delete(AnnKey);
    data.Put(GraphicDataKey, RealGraphics(c.graphicData));
    data.Put(IdentifiersKey, Ints(c.identifiers));
    data.Put(LabelsKey, Texts(c.labels));
    return Returned;
  }

  // ---------------------------------------------------------------------------
  // Encoding stage

  /**
   * The object made from the lists: the planned groups drawing UIDs from `uidBase`,
   * then the series and instance UIDs, series number 204, instance number 1.
   */
  predicate LegacyObject(
    dcm: BulkAnnotations<RealCoordinate>, graphicData: seq<seq<RealCoordinate>>, identifiers: seq<int>,
    labels: seq<string>, graphicTypeName: string, coordinateTypeName: string, table: LabelsDict, uidBase: nat)
    requires ParseGraphicType(graphicTypeName).Ok? && ParseCoordinateType(coordinateTypeName).Ok?
  {
    var plan := LegacyPlanFor(table, labels);
    && GroupsFollowLegacyPlan(dcm.groups, plan, uidBase, table, ParseGraphicType(graphicTypeName).value,
                              graphicData, identifiers)
    && dcm.coordinateType == ParseCoordinateType(coordinateTypeName).value
    && dcm.seriesUid == Uid(uidBase + |plan|) && dcm.seriesNumber == LegacySeriesNumber
    && dcm.sopInstanceUid == Uid(uidBase + |plan| + 1) && dcm.instanceNumber == 1
    && dcm.extra == [OtherClinicalTrialProtocolIds]
  }

  /**
   * `create_dcm_annotations` of the older entry point: an encoder error is logged and
   * None returned with the dictionary untouched; otherwise the three lists are deleted
   * and the object is stored under 'ann_dcm'. `used` is the number of UIDs drawn.
   */
  method LegacyCreateDcm(
    data: Data, graphicTypeName: string, coordinateTypeName: string, table: LabelsDict, uidBase: nat)
    returns (r: Outcome, used: nat)
    requires LegacyReady(data.entries)
    modifies data
    ensures !r.Raised?
    ensures r.Returned? <==>
      && ParseGraphicType(graphicTypeName).Ok? && ParseCoordinateType(coordinateTypeName).Ok?
      && CodesOk(table, old(data.entries[LabelsKey].texts))
    ensures r.ReturnedNone? ==> data.entries == old(data.entries)
    ensures r.ReturnedNone? && ParseGraphicType(graphicTypeName).Ok? && ParseCoordinateType(coordinateTypeName).Ok? ==>
      r.logged == IndexError("list index out of range")
    ensures r.Returned? ==>
      && AnnDcmKey in data.entries && data.entries[AnnDcmKey].LegacyDcm?
      && data.entries == (old(data.entries) - {GraphicDataKey, IdentifiersKey, LabelsKey})[AnnDcmKey := data.entries[AnnDcmKey]]
      && LegacyObject(data.entries[AnnDcmKey].legacyDcm, old(data.entries[GraphicDataKey].realGraphics),
                      old(data.entries[IdentifiersKey].ints), old(data.entries[LabelsKey].texts), graphicTypeName,
                      coordinateTypeName, table, uidBase)
      && used == |LegacyPlanFor(table, old(data.entries[LabelsKey].texts))| + 2
  {
    var e := data.entries;
    var obj := CreateBulkAnnotations(e[GraphicDataKey].realGraphics, e[IdentifiersKey].ints, e[LabelsKey].texts,
                                     graphicTypeName, coordinateTypeName, table, uidBase);
    if obj.Err? {
      return ReturnedNone(obj.error), 0;
    }
    data.Delete(GraphicDataKey);
    data.Delete(IdentifiersKey);
    data.Delete(LabelsKey);
    data.Put(AnnDcmKey, LegacyDcm(obj.value));
    return Returned, |obj.value.groups| + 2;
  }

  // ---------------------------------------------------------------------------
  // Saving

  /** `<out>/<slide>/<slide>_ann.dcm`. */
  function LegacyAnnPath(outputDir: string, slideId: string): string {
    outputDir + "/" + slideId + "/" + slideId + "_ann.dcm"
  }

  /** Different stems write different files. */
  lemma LegacyAnnPathInjective(outputDir: string, a: string, b: string)
    requires LegacyAnnPath(outputDir, a) == LegacyAnnPath(outputDir, b)
    ensures a == b
  {
    var p := outputDir + "/";
    assert |a| == |b|;
    assert a == LegacyAnnPath(outputDir, a)[|p|..|p| + |a|];
    assert b == LegacyAnnPath(outputDir, b)[|p|..|p| + |b|];
  }

  /**
   * The file is named after the folder's stem, so folders that differ only in their last
   * suffix, such as `A.x` and `A.y`, write the same file.
   */
  lemma LegacyStemsCollide(outputDir: string)
    ensures LegacyAnnPath(outputDir, Stem("A.x")) == LegacyAnnPath(outputDir, Stem("A.y")) == outputDir + "/A/A_ann.dcm"
  {
    assert "A" + "." + "x" == "A.x" && "A" + "." + "y" == "A.y";
    StemDropsSuffix("A", "x");
    StemDropsSuffix("A", "y");
  }

  // ---------------------------------------------------------------------------
  // One slide folder

  /** The cell rows of a slide. */
  function CellsOf(cells: seq<LegacyRow>, slideId: string): seq<LegacyRow> {
    FilterRows(cells, (r: LegacyRow) => r.slideId == Some(slideId))
  }

  /**
   * A slide with cell rows converts without an exception: its folder has a readable
   * file, the type names are usable, and the label table lists codes for every group.
   */
  predicate LegacySlideOk(
    slide: LegacyFolder, slideCells: seq<LegacyRow>, graphicTypeName: string, coordinateTypeName: string,
    table: LabelsDict)
  {
    && HasBaseLevel(slide.levels)
    && LegacyNamesOk(graphicTypeName, coordinateTypeName)
    && CodesOk(table, LegacyLabels(LegacyAnnotationsOf(slideCells)))
  }

  /**
   * What the file of a slide holds: its name, built from the stem of the folder's name
   * (`slide_dir.stem`), the object's UIDs from `uidBase`, and,
   * for graphic data in the total pixel matrix, the groups of the sorted label list
   * over the rows' corners or centroids and identifiers.
   */
  predicate LegacyWritten(
    saved: LegacySaved, outputDir: string, stem: string, slideCells: seq<LegacyRow>, graphicTypeName: string,
    coordinateTypeName: string, table: LabelsDict, uidBase: nat)
  {
    var anns := LegacyAnnotationsOf(slideCells);
    var plan := LegacyPlanFor(table, LegacyLabels(anns));
    && saved.path == LegacyAnnPath(outputDir, stem)
    && saved.dcm.seriesUid == Uid(uidBase + |plan|) && saved.dcm.sopInstanceUid == Uid(uidBase + |plan| + 1)
    && saved.dcm.seriesNumber == LegacySeriesNumber && saved.dcm.instanceNumber == 1
    && |saved.dcm.groups| == |plan|
    && (LegacyNamesOk(graphicTypeName, coordinateTypeName) && ParseCoordinateType(coordinateTypeName) == Ok(Scoord) ==>
          LegacyObject(saved.dcm, LegacyGraphics(anns, ParseGraphicType(graphicTypeName).value),
                       LegacyIdentifiers(anns), LegacyLabels(anns), graphicTypeName, coordinateTypeName, table, uidBase))
  }

  /**
   * The body of the run loop for a slide with cell rows: read the base level, then the
   * four stages. It writes its file exactly when the slide converts; otherwise it
   * stops at the missing base level or with the TypeError of indexing a None.
   */
  method LegacySlide(
    slide: LegacyFolder, slideCells: seq<LegacyRow>, outputDir: string, graphicTypeName: string,
    coordinateTypeName: string, table: LabelsDict, uidBase: nat)
    returns (saved: Option<LegacySaved>, abort: Option<Abort>, used: nat)
    requires slideCells != []
    ensures abort.None? <==> saved.Some?
    ensures abort.None? <==> LegacySlideOk(slide, slideCells, graphicTypeName, coordinateTypeName, table)
    ensures abort.Some? ==> abort.value == if HasBaseLevel(slide.levels) then Crash(NoneNotSubscriptable)
                                           else NoBaseLevel(slide.slideId)
    ensures saved.Some? ==>
      && LegacyWritten(saved.value, outputDir, Stem(slide.slideId), slideCells, graphicTypeName, coordinateTypeName,
                       table, uidBase)
      && used == |saved.value.dcm.groups| + 2
  {
    var id := slide.slideId;
    var base := FindBaseLevel(slide.levels);
    if base.None? {
      return None, Some(NoBaseLevel(id)), 0;
    }
    var data := new Data(map[SlideIdKey := Text(Stem(id)), SourceImageKey := SourceImage(base.value)]);
    saved, used := LegacyStages(data, Stem(id), slideCells, outputDir, graphicTypeName, coordinateTypeName, table, uidBase);
    abort := if saved.Some? then None else Some(Crash(NoneNotSubscriptable));
  }

  /**
   * The four stages on the dictionary of one slide. The file is written exactly when
   * the type names are usable and the label table lists codes for every group.
   */
  method LegacyStages(
    data: Data, slideId: string, slideCells: seq<LegacyRow>, outputDir: string, graphicTypeName: string,
    coordinateTypeName: string, table: LabelsDict, uidBase: nat)
    returns (saved: Option<LegacySaved>, used: nat)
    requires slideCells != []
    requires SlideIdKey in data.entries && data.entries[SlideIdKey] == Text(slideId)
    modifies data
    ensures saved.Some? <==>
      LegacyNamesOk(graphicTypeName, coordinateTypeName) && CodesOk(table, LegacyLabels(LegacyAnnotationsOf(slideCells)))
    ensures saved.Some? ==>
      && LegacyWritten(saved.value, outputDir, slideId, slideCells, graphicTypeName, coordinateTypeName, table, uidBase)
      && used == |saved.value.dcm.groups| + 2
  {
    ParseLegacyAnnotations(data, slideCells);
    ghost var anns := LegacyAnnotationsOf(slideCells);
    var g := LegacyParseToGraphicData(data, graphicTypeName, coordinateTypeName);
    if g.ReturnedNone? {
      return None, 0;
    }
    assert data.entries[LabelsKey] == Texts(LegacyLabels(anns));
    var e;
    e, used := LegacyCreateDcm(data, graphicTypeName, coordinateTypeName, table, uidBase);
    if e.ReturnedNone? {
      return None, 0;
    }
    var path := LegacyAnnPath(outputDir, data.entries[SlideIdKey].text);
    saved := Some(LegacySaved(path, data.entries[AnnDcmKey].legacyDcm));
  }

  // ---------------------------------------------------------------------------
  // The run

  /** The slide folders with cell rows, in listing order. */
  function LegacyTargets(slides: seq<LegacyFolder>, cells: seq<LegacyRow>): seq<LegacyFolder> {
    FilterRows(slides, (s: LegacyFolder) => CellsOf(cells, s.slideId) != [])
  }

  /** The first `n` target slides convert. */
  predicate TargetsOk(
    targets: seq<LegacyFolder>, n: nat, cells: seq<LegacyRow>, graphicTypeName: string, coordinateTypeName: string,
    table: LabelsDict)
    requires n <= |targets|
  {
    forall u :: 0 <= u < n ==>
      LegacySlideOk(targets[u], CellsOf(cells, targets[u].slideId), graphicTypeName, coordinateTypeName, table)
  }

  /** The files written are those of the first target slides, in order. */
  ghost predicate LegacyRunPrefix(
    outputs: seq<LegacySaved>, targets: seq<LegacyFolder>, bases: seq<nat>, cells: seq<LegacyRow>, outputDir: string,
    graphicTypeName: string, coordinateTypeName: string, table: LabelsDict)
  {
    && |outputs| <= |targets| && |bases| == |outputs|
    && forall i :: 0 <= i < |outputs| ==>
         LegacyWritten(outputs[i], outputDir, Stem(targets[i].slideId), CellsOf(cells, targets[i].slideId),
                       graphicTypeName, coordinateTypeName, table, bases[i])
  }

  /**
   * `run` of the older entry point: visit the slide folders in listing order and
   * convert each one with cell rows, until one raises. The files written are those of
   * the first slides with cell rows, all of them exactly when each of those converts;
   * different files carry different series and instance UIDs.
   */
  method LegacyRun(
    cells: seq<LegacyRow>, slides: seq<LegacyFolder>, outputDir: string, graphicTypeName: string,
    coordinateTypeName: string, table: LabelsDict)
    returns (outputs: seq<LegacySaved>, abort: Option<Abort>, ghost bases: seq<nat>)
    ensures LegacyRunPrefix(outputs, LegacyTargets(slides, cells), bases, cells, outputDir, graphicTypeName,
                            coordinateTypeName, table)
    ensures abort.None? ==> |outputs| == |LegacyTargets(slides, cells)|
    ensures abort.None? <==> TargetsOk(LegacyTargets(slides, cells), |LegacyTargets(slides, cells)|, cells,
                                       graphicTypeName, coordinateTypeName, table)
    ensures forall i, j :: 0 <= i < j < |outputs| ==>
      && outputs[i].dcm.seriesUid != outputs[j].dcm.seriesUid
      && outputs[i].dcm.sopInstanceUid != outputs[j].dcm.sopInstanceUid
  {
    outputs, abort, bases := [], None, [];
    var next := 0;
    for t := 0 to |slides|
      invariant LegacyRunPrefix(outputs, LegacyTargets(slides[..t], cells), bases, cells, outputDir, graphicTypeName,
                                coordinateTypeName, table)
      invariant |outputs| == |LegacyTargets(slides[..t], cells)|
      invariant TargetsOk(LegacyTargets(slides[..t], cells), |outputs|, cells, graphicTypeName, coordinateTypeName, table)
      invariant UidsBelow(outputs, next)
      invariant abort.None?
    {
      outputs, bases, next, abort := LegacyStep(slides, t, outputs, bases, next, cells, outputDir, graphicTypeName,
                                                coordinateTypeName, table);
      if abort.Some? {
        return;
      }
    }
    assert slides[..|slides|] == slides;
    UidsDistinct(outputs, next);
  }

  /**
   * The visit of folder `t` within the run: the loop's state moves on to the first
   * `t + 1` folders, or the run stops with what it wrote so far.
   */
  method LegacyStep(
    slides: seq<LegacyFolder>, t: nat, outputs: seq<LegacySaved>, ghost bases: seq<nat>, next: nat,
    cells: seq<LegacyRow>, outputDir: string, graphicTypeName: string, coordinateTypeName: string, table: LabelsDict)
    returns (outputs': seq<LegacySaved>, ghost bases': seq<nat>, next': nat, abort: Option<Abort>)
    requires t < |slides|
    requires LegacyRunPrefix(outputs, LegacyTargets(slides[..t], cells), bases, cells, outputDir, graphicTypeName,
                             coordinateTypeName, table)
    requires |outputs| == |LegacyTargets(slides[..t], cells)|
    requires TargetsOk(LegacyTargets(slides[..t], cells), |outputs|, cells, graphicTypeName, coordinateTypeName, table)
    requires UidsBelow(outputs, next)
    ensures abort.None? ==>
      && LegacyRunPrefix(outputs', LegacyTargets(slides[..t + 1], cells), bases', cells, outputDir, graphicTypeName,
                         coordinateTypeName, table)
      && |outputs'| == |LegacyTargets(slides[..t + 1], cells)|
      && TargetsOk(LegacyTargets(slides[..t + 1], cells), |outputs'|, cells, graphicTypeName, coordinateTypeName,
                   table)
      && UidsBelow(outputs', next')
    ensures abort.Some? ==>
      && LegacyRunPrefix(outputs', LegacyTargets(slides, cells), bases', cells, outputDir, graphicTypeName,
                         coordinateTypeName, table)
      && !TargetsOk(LegacyTargets(slides, cells), |LegacyTargets(slides, cells)|, cells, graphicTypeName,
                    coordinateTypeName, table)
      && forall i, j :: 0 <= i < j < |outputs'| ==>
           && outputs'[i].dcm.seriesUid != outputs'[j].dcm.seriesUid
           && outputs'[i].dcm.sopInstanceUid != outputs'[j].dcm.sopInstanceUid
  {
    ghost var all := LegacyTargets(slides, cells);
    ghost var before := LegacyTargets(slides[..t], cells);
    TargetsSnoc(slides, t, cells);
    outputs', bases', next', abort := outputs, bases, next, None;
    var slideCells := CellsOf(cells, slides[t].slideId);
    if slideCells != [] {
      outputs', bases', next', abort := LegacyVisit(slides[t], outputs, bases, next, before, cells, outputDir,
                                                    graphicTypeName, coordinateTypeName, table);
      if abort.Some? {
        LegacyStepStops(slides, t, outputs, bases, next, cells, outputDir, graphicTypeName, coordinateTypeName, table);
      }
    }
  }

  /** A folder that fails stops the run with a prefix of the whole run's files, whose UIDs are distinct. */
  lemma LegacyStepStops(
    slides: seq<LegacyFolder>, t: nat, outputs: seq<LegacySaved>, bases: seq<nat>, next: nat,
    cells: seq<LegacyRow>, outputDir: string, graphicTypeName: string, coordinateTypeName: string, table: LabelsDict)
    requires t < |slides| && CellsOf(cells, slides[t].slideId) != []
    requires LegacyRunPrefix(outputs, LegacyTargets(slides[..t], cells), bases, cells, outputDir, graphicTypeName,
                             coordinateTypeName, table)
    requires |outputs| == |LegacyTargets(slides[..t], cells)|
    requires UidsBelow(outputs, next)
    requires !LegacySlideOk(slides[t], CellsOf(cells, slides[t].slideId), graphicTypeName, coordinateTypeName, table)
    ensures LegacyRunPrefix(outputs, LegacyTargets(slides, cells), bases, cells, outputDir, graphicTypeName,
                            coordinateTypeName, table)
    ensures !TargetsOk(LegacyTargets(slides, cells), |LegacyTargets(slides, cells)|, cells, graphicTypeName,
                       coordinateTypeName, table)
    ensures forall i, j :: 0 <= i < j < |outputs| ==>
      && outputs[i].dcm.seriesUid != outputs[j].dcm.seriesUid
      && outputs[i].dcm.sopInstanceUid != outputs[j].dcm.sopInstanceUid
  {
    var all := LegacyTargets(slides, cells);
    var upTo := LegacyTargets(slides[..t + 1], cells);
    TargetsSnoc(slides, t, cells);
    assert upTo == LegacyTargets(slides[..t], cells) + [slides[t]];
    assert upTo[|outputs|] == slides[t];
    TargetsPrefix(slides, t + 1, cells);
    PrefixAt(upTo, all, |outputs|);
    TargetsOkFails(all, |outputs|, cells, graphicTypeName, coordinateTypeName, table);
    TargetsPrefix(slides, t, cells);
    RunPrefixWithin(outputs, LegacyTargets(slides[..t], cells), all, bases, cells, outputDir,
                    graphicTypeName, coordinateTypeName, table);
    UidsDistinct(outputs, next);
  }

  /**
   * One slide with cell rows within the run: its file is appended when it converts,
   * and the UID counter moves past the UIDs its object drew; otherwise nothing changes
   * and the reason is returned.
   */
  method LegacyVisit(
    slide: LegacyFolder, outputs: seq<LegacySaved>, ghost bases: seq<nat>, next: nat, ghost targets: seq<LegacyFolder>,
    cells: seq<LegacyRow>, outputDir: string, graphicTypeName: string, coordinateTypeName: string, table: LabelsDict)
    returns (outputs': seq<LegacySaved>, ghost bases': seq<nat>, next': nat, abort: Option<Abort>)
    requires CellsOf(cells, slide.slideId) != []
    requires LegacyRunPrefix(outputs, targets, bases, cells, outputDir, graphicTypeName, coordinateTypeName, table)
    requires |outputs| == |targets|
    requires TargetsOk(targets, |outputs|, cells, graphicTypeName, coordinateTypeName, table)
    requires UidsBelow(outputs, next)
    ensures abort.Some? ==>
      && outputs' == outputs && bases' == bases && next' == next
      && !LegacySlideOk(slide, CellsOf(cells, slide.slideId), graphicTypeName, coordinateTypeName, table)
    ensures abort.None? ==>
      && LegacyRunPrefix(outputs', targets + [slide], bases', cells, outputDir, graphicTypeName, coordinateTypeName,
                         table)
      && |outputs'| == |targets| + 1
      && TargetsOk(targets + [slide], |outputs'|, cells, graphicTypeName, coordinateTypeName, table)
      && UidsBelow(outputs', next')
  {
    var saved, a, used := LegacySlide(slide, CellsOf(cells, slide.slideId), outputDir, graphicTypeName,
                                      coordinateTypeName, table, next);
    if a.Some? {
      return outputs, bases, next, a;
    }
    RunPrefixSnoc(outputs, targets, bases, saved.value, slide, next, cells, outputDir, graphicTypeName,
                  coordinateTypeName, table);
    TargetsOkSnoc(targets, slide, cells, graphicTypeName, coordinateTypeName, table);
    UidsSnoc(outputs, saved.value, next, used);
    return outputs + [saved.value], bases + [next], next + used, None;
  }

  /** Each written object has its series UID below its instance UID, both below `next`, and below the next object's. */
  predicate UidsBelow(outputs: seq<LegacySaved>, next: nat) {
    && (forall i :: 0 <= i < |outputs| ==> outputs[i].dcm.seriesUid.n < outputs[i].dcm.sopInstanceUid.n < next)
    && (forall i, j :: 0 <= i < j < |outputs| ==> outputs[i].dcm.sopInstanceUid.n < outputs[j].dcm.seriesUid.n)
  }

  lemma UidsSnoc(outputs: seq<LegacySaved>, saved: LegacySaved, next: nat, used: nat)
    requires UidsBelow(outputs, next)
    requires next <= saved.dcm.seriesUid.n < saved.dcm.sopInstanceUid.n < next + used
    ensures UidsBelow(outputs + [saved], next + used)
  {
    var o := outputs + [saved];
    forall i, j | 0 <= i < j < |o| ensures o[i].dcm.sopInstanceUid.n < o[j].dcm.seriesUid.n {
      if j < |outputs| {
        assert o[i] == outputs[i] && o[j] == outputs[j];
      } else {
        assert o[i] == outputs[i] && o[j] == saved;
      }
    }
  }

  lemma UidsDistinct(outputs: seq<LegacySaved>, next: nat)
    requires UidsBelow(outputs, next)
    ensures forall i, j :: 0 <= i < j < |outputs| ==>
      && outputs[i].dcm.seriesUid != outputs[j].dcm.seriesUid
      && outputs[i].dcm.sopInstanceUid != outputs[j].dcm.sopInstanceUid
  {
  }

  lemma TargetsOkSnoc(
    targets: seq<LegacyFolder>, slide: LegacyFolder, cells: seq<LegacyRow>, graphicTypeName: string,
    coordinateTypeName: string, table: LabelsDict)
    requires TargetsOk(targets, |targets|, cells, graphicTypeName, coordinateTypeName, table)
    requires LegacySlideOk(slide, CellsOf(cells, slide.slideId), graphicTypeName, coordinateTypeName, table)
    ensures TargetsOk(targets + [slide], |targets| + 1, cells, graphicTypeName, coordinateTypeName, table)
  {
    var ts := targets + [slide];
    forall u | 0 <= u < |ts|
      ensures LegacySlideOk(ts[u], CellsOf(cells, ts[u].slideId), graphicTypeName, coordinateTypeName, table)
    {
      if u < |targets| {
        assert ts[u] == targets[u];
      }
    }
  }

  lemma RunPrefixSnoc(
    outputs: seq<LegacySaved>, targets: seq<LegacyFolder>, bases: seq<nat>, saved: LegacySaved, slide: LegacyFolder,
    base: nat, cells: seq<LegacyRow>, outputDir: string, graphicTypeName: string, coordinateTypeName: string,
    table: LabelsDict)
    requires LegacyRunPrefix(outputs, targets, bases, cells, outputDir, graphicTypeName, coordinateTypeName, table)
    requires |outputs| == |targets|
    requires LegacyWritten(saved, outputDir, Stem(slide.slideId), CellsOf(cells, slide.slideId), graphicTypeName,
                           coordinateTypeName, table, base)
    ensures LegacyRunPrefix(outputs + [saved], targets + [slide], bases + [base], cells, outputDir, graphicTypeName,
                            coordinateTypeName, table)
  {
    var o, ts, bs := outputs + [saved], targets + [slide], bases + [base];
    forall i | 0 <= i < |o|
      ensures LegacyWritten(o[i], outputDir, Stem(ts[i].slideId), CellsOf(cells, ts[i].slideId), graphicTypeName,
                            coordinateTypeName, table, bs[i])
    {
      if i < |outputs| {
        assert o[i] == outputs[i] && ts[i] == targets[i] && bs[i] == bases[i];
      }
    }
  }

  lemma RunPrefixWithin(
    outputs: seq<LegacySaved>, targets: seq<LegacyFolder>, all: seq<LegacyFolder>, bases: seq<nat>,
    cells: seq<LegacyRow>, outputDir: string, graphicTypeName: string, coordinateTypeName: string, table: LabelsDict)
    requires LegacyRunPrefix(outputs, targets, bases, cells, outputDir, graphicTypeName, coordinateTypeName, table)
    requires targets <= all
    ensures LegacyRunPrefix(outputs, all, bases, cells, outputDir, graphicTypeName, coordinateTypeName, table)
  {
  }

  /** A target that does not convert makes the whole list fail. */
  lemma TargetsOkFails(
    targets: seq<LegacyFolder>, u: nat, cells: seq<LegacyRow>, graphicTypeName: string, coordinateTypeName: string,
    table: LabelsDict)
    requires u < |targets|
    requires !LegacySlideOk(targets[u], CellsOf(cells, targets[u].slideId), graphicTypeName, coordinateTypeName, table)
    ensures !TargetsOk(targets, |targets|, cells, graphicTypeName, coordinateTypeName, table)
  {
  }

  /** One more folder adds itself to the targets exactly when it has cell rows. */
  lemma TargetsSnoc(slides: seq<LegacyFolder>, t: nat, cells: seq<LegacyRow>)
    requires t < |slides|
    ensures LegacyTargets(slides[..t + 1], cells)
         == LegacyTargets(slides[..t], cells) + (if CellsOf(cells, slides[t].slideId) != [] then [slides[t]] else [])
  {
    assert slides[..t + 1][..t] == slides[..t];
  }

  lemma {:induction false} TargetsPrefix(slides: seq<LegacyFolder>, t: nat, cells: seq<LegacyRow>)
    requires t <= |slides|
    ensures LegacyTargets(slides[..t], cells) <= LegacyTargets(slides, cells)
    decreases |slides|
  {
    if t < |slides| {
      var n := |slides| - 1;
      TargetsPrefix(slides[..n], t, cells);
      assert slides[..n][..t] == slides[..t];
    } else {
      assert slides[..t] == slides;
    }
  }
}
