/**
 * The entry point of the current pipeline: the row parsers, the data-dict bookkeeping
 * of the graphic and encoding stages, the output file names, and the per-slide loop
 * over annotation sessions.
 */
module RunConversion {
  import opened Wrappers
  import opened Strings
  import opened Indices
  import opened AnnotationTypes
  import opened DataDict
  import opened DataUtils
  import opened Convert
  import opened SourceImage

  /** How a stage ended: it returned the data, it logged an error and returned None, or it raised. */
  datatype Outcome = Returned | ReturnedNone(logged: Exception) | Raised(error: Exception)

  // ---------------------------------------------------------------------------
  // Row parsers

  /** ROI records with box (x, y, x + width, y + height) and identifier `id`, stored under 'ann'. */
  method ParseRoiAnnotations(data: Data, rows: seq<RoiRow>)
    modifies data
    ensures AnnKey in data.entries && data.entries[AnnKey].Anns?
    ensures data.entries == old(data.entries)[AnnTypeKey := Text("roi")][AnnKey := data.entries[AnnKey]]
    ensures var ann := data.entries[AnnKey].anns;
      && |ann| == |rows|
      && forall i :: 0 <= i < |ann| ==> ann[i] == RoiFromRow(rows[i])
  {
    var ann := [];
    for i := 0 to |rows|
      invariant |ann| == i
      invariant forall j :: 0 <= j < i ==> ann[j] == RoiFromRow(rows[j])
    {
      var row := rows[i];
      var xMin, yMin := row.xInSlide, row.yInSlide;
      var xMax, yMax := xMin + row.width, yMin + row.height;
      ann := ann + [RoiAnnotation(row.id, Box(xMin, yMin, xMax, yMax))];
    }
    data.Put(AnnTypeKey, Text("roi"));
    data.Put(AnnKey, Anns(ann));
  }

  /** The ROI record of a row, as an independent statement of the parser's arithmetic. */
  function RoiFromRow(row: RoiRow): (a: Annotation)
    ensures a.RoiAnnotation? && a.identifier == row.id
    ensures a.boundingBox.xmin == row.xInSlide && a.boundingBox.ymin == row.yInSlide
    ensures a.boundingBox.xmax - a.boundingBox.xmin == row.width
    ensures a.boundingBox.ymax - a.boundingBox.ymin == row.height
  {
    RoiAnnotation(row.id, Box(row.xInSlide, row.yInSlide, row.xInSlide + row.width, row.yInSlide + row.height))
  }

  /**
   * The label of a row for one pass: the consensus label for 'consensus', otherwise the
   * item of the session list at that step.
   */
  function RunCellLabel(row: CellRow, session: Session): (r: Result<string>)
    ensures session == Named("consensus") ==> r == Ok(row.consensus)
    ensures session.Step? && 0 <= session.k < |Split(row.sessions, ',')| ==>
      r == Ok(Split(row.sessions, ',')[session.k])
    ensures session.Step? && session.k >= |Split(row.sessions, ',')| ==> r == Err(IndexError("list index out of range"))
    ensures session.Named? && session != Named("consensus") ==> r.Err? && r.error.TypeError?
  {
    if session == Named("consensus") then Ok(row.consensus)
    else SessionLabel(row.sessions, session)
  }

  function CellFromRow(row: CellRow, cellLabel: string): Annotation {
    CellAnnotation(row.cellId, row.rocellboxingId,
                   Box(row.xInSlide, row.yInSlide, row.xInSlide + row.cellWidth, row.yInSlide + row.cellHeight), cellLabel)
  }

  /**
   * Cell records for one pass, stored under 'ann'. A row whose label lookup raises ends
   * the call with that exception before the dictionary is touched.
   */
  method ParseCellAnnotations(data: Data, rows: seq<CellRow>, session: Session) returns (err: Option<Exception>)
    modifies data
    ensures err.None? <==> forall i :: 0 <= i < |rows| ==> RunCellLabel(rows[i], session).Ok?
    ensures err.Some? ==> data.entries == old(data.entries)
    ensures err.Some? ==> exists i :: 0 <= i < |rows| && RunCellLabel(rows[i], session) == Err(err.value)
    ensures err.None? ==> AnnKey in data.entries && data.entries[AnnKey].Anns?
    ensures err.None? ==>
      data.entries == old(data.entries)[AnnTypeKey := Text("cell")][AnnKey := data.entries[AnnKey]]
    ensures err.None? ==> var ann := data.entries[AnnKey].anns;
      && |ann| == |rows|
      && forall i :: 0 <= i < |ann| ==> ann[i] == CellFromRow(rows[i], RunCellLabel(rows[i], session).value)
  {
    var ann := [];
    for i := 0 to |rows|
      invariant |ann| == i
      invariant forall j :: 0 <= j < i ==> RunCellLabel(rows[j], session).Ok?
      invariant forall j :: 0 <= j < i ==> ann[j] == CellFromRow(rows[j], RunCellLabel(rows[j], session).value)
    {
      var row := rows[i];
      var cellLabel := RunCellLabel(row, session);
      if cellLabel.Err? {
        return Some(cellLabel.error);
      }
      ann := ann + [CellFromRow(row, cellLabel.value)];
    }
    data.Put(AnnTypeKey, Text("cell"));
    data.Put(AnnKey, Anns(ann));
    return None;
  }

  // ---------------------------------------------------------------------------
  // Graphic stage

  predicate AllRois(anns: seq<Annotation>) {
    forall i :: 0 <= i < |anns| ==> anns[i].RoiAnnotation?
  }

  predicate AllCells(anns: seq<Annotation>) {
    forall i :: 0 <= i < |anns| ==> anns[i].CellAnnotation?
  }

  function RoiIds(anns: seq<Annotation>): seq<int>
    requires AllRois(anns)
  {
    seq(|anns|, i requires 0 <= i < |anns| => anns[i].identifier)
  }

  function CellIds(anns: seq<Annotation>): seq<int>
    requires AllCells(anns)
  {
    seq(|anns|, i requires 0 <= i < |anns| => anns[i].cellIdentifier)
  }

  function CellRoiIds(anns: seq<Annotation>): seq<int>
    requires AllCells(anns)
  {
    seq(|anns|, i requires 0 <= i < |anns| => anns[i].roiIdentifier)
  }

  function CellLabelsOf(anns: seq<Annotation>): seq<string>
    requires AllCells(anns)
  {
    seq(|anns|, i requires 0 <= i < |anns| => anns[i].cellLabel)
  }

  /** `get_graphic_data` succeeds on these arguments. */
  predicate GraphicDataOk(anns: seq<Annotation>, graphicTypeName: string, coordinateTypeName: string) {
    && ParseGraphicType(graphicTypeName).Ok? && ParseCoordinateType(coordinateTypeName).Ok?
    && (anns == [] || Supported(ParseGraphicType(graphicTypeName).value))
  }

  /** `g` is graphic data for `anns`: one item each, the projected box for SCOORD. */
  predicate GraphicsFor(anns: seq<Annotation>, bounds: Bounds, graphicTypeName: string, coordinateTypeName: string,
                        g: seq<seq<Coordinate>>)
  {
    && |g| == |anns|
    && (ParseGraphicType(graphicTypeName).Ok? && ParseCoordinateType(coordinateTypeName) == Ok(Scoord) ==>
         forall i :: 0 <= i < |anns| ==>
           ProcessAnnotation(anns[i], bounds, ParseGraphicType(graphicTypeName).value) == Ok(g[i]))
  }

  /**
   * `parse_annotations_to_graphic_data`: an error of `get_graphic_data` is logged and
   * None returned with the dictionary untouched; otherwise 'graphic_data' is stored, the
   * per-annotation lists of the annotation kind are added, and 'ann' is deleted. An
   * empty annotation list raises IndexError at `data['ann'][0]`, after 'graphic_data'
   * was stored.
   */
  method ParseAnnotationsToGraphicData(data: Data, bounds: Bounds, graphicTypeName: string, coordinateTypeName: string)
    returns (r: Outcome)
    requires AnnKey in data.entries && data.entries[AnnKey].Anns?
    requires AllRois(data.entries[AnnKey].anns) || AllCells(data.entries[AnnKey].anns)
    modifies data
    ensures var anns := old(data.entries[AnnKey].anns);
      r.ReturnedNone? <==> !GraphicDataOk(anns, graphicTypeName, coordinateTypeName)
    ensures r.ReturnedNone? ==> data.entries == old(data.entries)
    ensures var anns := old(data.entries[AnnKey].anns);
      r.Raised? <==> GraphicDataOk(anns, graphicTypeName, coordinateTypeName) && anns == []
    ensures r.Raised? ==>
      && r.error == IndexError("list index out of range")
      && data.entries == old(data.entries)[GraphicDataKey := Graphics([])]
    ensures r.Returned? ==> GraphicDataKey in data.entries && data.entries[GraphicDataKey].Graphics?
    ensures r.Returned? ==> var anns := old(data.entries[AnnKey].anns);
      && anns != []
      && GraphicsFor(anns, bounds, graphicTypeName, coordinateTypeName, data.entries[GraphicDataKey].graphics)
      && (anns[0].RoiAnnotation? ==>
           data.entries == old(data.entries)[GraphicDataKey := data.entries[GraphicDataKey]]
                                            [IdentifiersKey := Ints(RoiIds(anns))] - {AnnKey})
      && (anns[0].CellAnnotation? ==>
           data.entries == old(data.entries)[GraphicDataKey := data.entries[GraphicDataKey]]
                                            [CellIdentifiersKey := Ints(CellIds(anns))]
                                            [RoiIdentifiersKey := Ints(CellRoiIds(anns))]
                                            [LabelsKey := Texts(CellLabelsOf(anns))] - {AnnKey})
  {
    var anns := data.entries[AnnKey].anns;
    var graphicData := GetGraphicData(anns, bounds, graphicTypeName, coordinateTypeName);
    if graphicData.Err? {
      return ReturnedNone(graphicData.error);
    }
    data.Put(GraphicDataKey, Graphics(graphicData.value));
    if |anns| == 0 {
      return Raised(IndexError("list index out of range"));
    }
    if anns[0].RoiAnnotation? {
      data.Put(IdentifiersKey, Ints(RoiIds(anns)));
    } else {
      data.Put(CellIdentifiersKey, Ints(CellIds(anns)));
      data.Put(RoiIdentifiersKey, Ints(CellRoiIds(anns)));
      data.Put(LabelsKey, Texts(CellLabelsOf(anns)));
    }
    data.Delete(AnnKey);
    return Returned;
  }

  // ---------------------------------------------------------------------------
  // Encoding stage

  /** The dictionary holds what the ROI encoder reads, aligned. */
  predicate RoiReady(e: map<string, Value>) {
    && AnnTypeKey in e && e[AnnTypeKey] == Text("roi")
    && GraphicDataKey in e && e[GraphicDataKey].Graphics?
    && IdentifiersKey in e && e[IdentifiersKey].Ints?
    && |e[IdentifiersKey].ints| == |e[GraphicDataKey].graphics|
  }

  /** The dictionary holds what the cell encoder reads, aligned. */
  predicate CellReady(e: map<string, Value>) {
    && AnnTypeKey in e && e[AnnTypeKey] != Text("roi")
    && GraphicDataKey in e && e[GraphicDataKey].Graphics?
    && CellIdentifiersKey in e && e[CellIdentifiersKey].Ints?
    && RoiIdentifiersKey in e && e[RoiIdentifiersKey].Ints?
    && LabelsKey in e && e[LabelsKey].Texts?
    && |e[CellIdentifiersKey].ints| == |e[GraphicDataKey].graphics|
    && |e[RoiIdentifiersKey].ints| == |e[GraphicDataKey].graphics|
    && |e[LabelsKey].texts| == |e[GraphicDataKey].graphics|
  }

  /** The ROI object the encoder builds from the dictionary. */
  function RoiObject(e: map<string, Value>, seriesUid: Uid, instanceNumber: int, graphicTypeName: string,
                     coordinateTypeName: string, roiLabels: map<string, CodePair>, uidBase: nat)
    : Result<BulkAnnotations<Coordinate>>
    requires RoiReady(e)
  {
    CreateBulkAnnotationsForRois(e[GraphicDataKey].graphics, e[IdentifiersKey].ints, seriesUid, instanceNumber,
                                 graphicTypeName, coordinateTypeName, roiLabels, uidBase)
  }

  /** The groups the cell encoder plans for the dictionary's labels and ROI identifiers. */
  ghost function CellPlan(e: map<string, Value>, cellLabels: map<string, CodePair>): seq<GroupPlan>
    requires CellReady(e)
  {
    Plan(SortedSet(cellLabels.Keys), e[LabelsKey].texts, e[RoiIdentifiersKey].ints)
  }

  /**
   * `create_dcm_annotations`: an encoder error is logged and None returned with the
   * dictionary untouched; otherwise the object is stored under 'ann_dcm' and the inputs
   * of the encoder are deleted. `used` is the number of fresh UIDs the encoder drew.
   */
  method CreateDcmAnnotations(
    data: Data, seriesUid: Uid, instanceNumber: int, graphicTypeName: string, coordinateTypeName: string,
    annSession: string, cellLabels: map<string, CodePair>, roiLabels: map<string, CodePair>, uidBase: nat)
    returns (r: Outcome, used: nat)
    requires RoiReady(data.entries) || CellReady(data.entries)
    modifies data
    ensures !r.Raised?
    ensures r.ReturnedNone? ==> data.entries == old(data.entries)
    ensures old(RoiReady(data.entries)) ==>
      RoiEncoded(old(data.entries), data.entries, r, used, seriesUid, instanceNumber, graphicTypeName,
                 coordinateTypeName, roiLabels, uidBase)
    ensures old(CellReady(data.entries)) ==>
      CellsEncoded(old(data.entries), data.entries, r, used, seriesUid, instanceNumber, graphicTypeName,
                   coordinateTypeName, annSession, cellLabels, uidBase)
  {
    if data.entries[AnnTypeKey] == Text("roi") {
      r, used := CreateRoiDcm(data, seriesUid, instanceNumber, graphicTypeName, coordinateTypeName, roiLabels, uidBase);
    } else {
      r, used := CreateCellDcm(data, seriesUid, instanceNumber, graphicTypeName, coordinateTypeName, annSession,
                               cellLabels, uidBase);
    }
  }

  /**
   * The ROI branch: None exactly when the ROI encoder raises, with its error logged;
   * otherwise the object is stored under 'ann_dcm' and 'identifiers' is deleted.
   */
  ghost predicate RoiEncoded(
    e: map<string, Value>, e': map<string, Value>, r: Outcome, used: nat, seriesUid: Uid, instanceNumber: int,
    graphicTypeName: string, coordinateTypeName: string, roiLabels: map<string, CodePair>, uidBase: nat)
    requires RoiReady(e)
  {
    var obj := RoiObject(e, seriesUid, instanceNumber, graphicTypeName, coordinateTypeName, roiLabels, uidBase);
    && !r.Raised?
    && (r.ReturnedNone? <==> obj.Err?)
    && (r.ReturnedNone? ==> r.logged == obj.error && e' == e)
    && (r.Returned? ==> e' == e[AnnDcmKey := Dcm(obj.value)] - {IdentifiersKey})
    && used == 2
  }

  /**
   * The cell branch: None exactly when a type name is unknown, with its KeyError logged;
   * otherwise the object is stored under 'ann_dcm', the graphic data and the three cell
   * lists are deleted, and the object's groups follow the plan of its labels.
   */
  ghost predicate CellsEncoded(
    e: map<string, Value>, e': map<string, Value>, r: Outcome, used: nat, seriesUid: Uid, instanceNumber: int,
    graphicTypeName: string, coordinateTypeName: string, annSession: string, cellLabels: map<string, CodePair>,
    uidBase: nat)
    requires CellReady(e)
  {
    && !r.Raised?
    && (r.ReturnedNone? <==> ParseGraphicType(graphicTypeName).Err? || ParseCoordinateType(coordinateTypeName).Err?)
    && (r.ReturnedNone? ==> e' == e && r.logged == (if ParseGraphicType(graphicTypeName).Err? then KeyError(graphicTypeName)
                                                    else KeyError(coordinateTypeName)))
    && (r.Returned? ==>
         && AnnDcmKey in e' && e'[AnnDcmKey].Dcm?
         && e' == e[AnnDcmKey := e'[AnnDcmKey]] - {GraphicDataKey, CellIdentifiersKey, RoiIdentifiersKey, LabelsKey}
         && var obj := e'[AnnDcmKey].dcm;
         && GroupsFollowPlan(obj.groups, CellPlan(e, cellLabels), uidBase, cellLabels,
                             ParseGraphicType(graphicTypeName).value, e[GraphicDataKey].graphics,
                             e[CellIdentifiersKey].ints, e[RoiIdentifiersKey].ints)
         && obj.coordinateType == ParseCoordinateType(coordinateTypeName).value
         && obj.seriesUid == seriesUid && obj.seriesNumber == AnnotationSeriesNumber
         && obj.instanceNumber == instanceNumber
         && obj.sopInstanceUid == Uid(uidBase + |obj.groups|)
         && obj.extra == [ClinicalTrialSeriesId(annSession)]
         && used == |obj.groups| + 1)
  }

  method CreateRoiDcm(
    data: Data, seriesUid: Uid, instanceNumber: int, graphicTypeName: string, coordinateTypeName: string,
    roiLabels: map<string, CodePair>, uidBase: nat)
    returns (r: Outcome, used: nat)
    requires RoiReady(data.entries)
    modifies data
    ensures RoiEncoded(old(data.entries), data.entries, r, used, seriesUid, instanceNumber, graphicTypeName,
                       coordinateTypeName, roiLabels, uidBase)
  {
    used := 2;
    var obj := RoiObject(data.entries, seriesUid, instanceNumber, graphicTypeName, coordinateTypeName, roiLabels, uidBase);
    if obj.Err? {
      return ReturnedNone(obj.error), used;
    }
    data.Put(AnnDcmKey, Dcm(obj.value));
    data.Delete(IdentifiersKey);
    return Returned, used;
  }

  method CreateCellDcm(
    data: Data, seriesUid: Uid, instanceNumber: int, graphicTypeName: string, coordinateTypeName: string,
    annSession: string, cellLabels: map<string, CodePair>, uidBase: nat)
    returns (r: Outcome, used: nat)
    requires CellReady(data.entries)
    modifies data
    ensures CellsEncoded(old(data.entries), data.entries, r, used, seriesUid, instanceNumber, graphicTypeName,
                         coordinateTypeName, annSession, cellLabels, uidBase)
  {
    var e := data.entries;
    var obj := CreateBulkAnnotationsForCells(
      e[GraphicDataKey].graphics, e[CellIdentifiersKey].ints, e[RoiIdentifiersKey].ints, e[LabelsKey].texts,
      annSession, seriesUid, instanceNumber, graphicTypeName, coordinateTypeName, cellLabels, uidBase);
    if obj.Err? {
      return ReturnedNone(obj.error), 0;
    }
    assert GroupsFollowPlan(obj.value.groups, CellPlan(e, cellLabels), uidBase, cellLabels,
                            ParseGraphicType(graphicTypeName).value, e[GraphicDataKey].graphics,
                            e[CellIdentifiersKey].ints, e[RoiIdentifiersKey].ints);
    used := |obj.value.groups| + 1;
    StoreCellObject(data, obj.value);
    return Returned, used;
  }

  /** `data['ann_dcm'] = ann_dcm` and the four deletions of the cell branch. */
  method StoreCellObject(data: Data, obj: BulkAnnotations<Coordinate>)
    requires GraphicDataKey in data.entries && CellIdentifiersKey in data.entries
    requires RoiIdentifiersKey in data.entries && LabelsKey in data.entries
    modifies data
    ensures AnnDcmKey in data.entries && data.entries[AnnDcmKey] == Dcm(obj)
    ensures data.entries == old(data.entries)[AnnDcmKey := Dcm(obj)]
                            - {GraphicDataKey, CellIdentifiersKey, RoiIdentifiersKey, LabelsKey}
  {
    data.Put(AnnDcmKey, Dcm(obj));
    data.Delete(GraphicDataKey);
    data.Delete(CellIdentifiersKey);
    data.Delete(RoiIdentifiersKey);
    data.Delete(LabelsKey);
  }

  // ---------------------------------------------------------------------------
  // Output names

  /** The step text of a file name: `ann_step + 1` for an integer step, the name otherwise, 'None' when absent. */
  function StepName(step: Option<Session>): string {
    match step
    case None => "None"
    case Some(Step(k)) => IntToString(k + 1)
    case Some(Named(name)) => name
  }

  /** `<out>/<slide>/<slide>_rois.dcm`, or `<out>/<slide>/<slide>_cells_ann_step_<step>.dcm`. */
  function OutputPath(outputDir: string, slideId: string, annType: string, step: Option<Session>): string {
    var slideDir := outputDir + "/" + slideId;
    if annType == "roi" then slideDir + "/" + slideId + "_rois.dcm"
    else slideDir + "/" + slideId + "_cells_ann_step_" + StepName(step) + ".dcm"
  }

  /** The passes the loop makes: every step from 0, and 'consensus'. */
  predicate RunStep(s: Session) {
    (s.Step? && s.k >= 0) || s == Named("consensus")
  }

  /**
   * Within a slide the ROI file and the file of every pass have pairwise different
   * names, so no pass overwrites another.
   */
  lemma OutputPathsDistinct(outputDir: string, slideId: string, s: Session, t: Session)
    requires RunStep(s) && RunStep(t) && s != t
    ensures OutputPath(outputDir, slideId, "cell", Some(s)) != OutputPath(outputDir, slideId, "cell", Some(t))
    ensures OutputPath(outputDir, slideId, "cell", Some(s)) != OutputPath(outputDir, slideId, "roi", None)
  {
    var front := outputDir + "/" + slideId + "/" + slideId;
    var p := front + "_cells_ann_step_";
    assert OutputPath(outputDir, slideId, "cell", Some(s)) == p + StepName(Some(s)) + ".dcm";
    assert OutputPath(outputDir, slideId, "cell", Some(t)) == p + StepName(Some(t)) + ".dcm";
    StepNamesDistinct(s, t);
    FramesDiffer(p, StepName(Some(s)), StepName(Some(t)), ".dcm");
    var cellPath := OutputPath(outputDir, slideId, "cell", Some(s));
    var roiPath := OutputPath(outputDir, slideId, "roi", None);
    assert cellPath[|front| + 1] == 'c';
    assert roiPath == front + "_rois.dcm";
    assert roiPath[|front| + 1] == 'r';
  }

  /** Different passes are named differently: distinct step numbers, or a number and 'consensus'. */
  lemma StepNamesDistinct(s: Session, t: Session)
    requires RunStep(s) && RunStep(t) && s != t
    ensures StepName(Some(s)) != StepName(Some(t))
  {
    match s
    case Step(i) =>
      match t {
        case Step(j) => StepNumbersDistinct(i + 1, j + 1);
        case Named(_) => IntToStringNotWord(i + 1, "consensus");
      }
    case Named(_) =>
      IntToStringNotWord(t.k + 1, "consensus");
  }

  lemma StepNumbersDistinct(i: nat, j: nat)
    requires i != j
    ensures IntToString(i) != IntToString(j)
  {
    ParseNatToString(i);
    ParseNatToString(j);
  }

  // ---------------------------------------------------------------------------
  // Session passes

  /** `len(x.split(','))`: the number of labels of a row, at least one even for ''. */
  function StepCount(row: CellRow): (n: nat)
    ensures n >= 1
  {
    |Split(row.sessions, ',')|
  }

  /** `slide_cells['ann_steps'].max()`. */
  function MaxStepCount(rows: seq<CellRow>): (m: nat)
    requires rows != []
    ensures forall i :: 0 <= i < |rows| ==> StepCount(rows[i]) <= m
    ensures exists i :: 0 <= i < |rows| && StepCount(rows[i]) == m
    decreases |rows|
  {
    if |rows| == 1 then StepCount(rows[0])
    else
      var m := MaxStepCount(rows[..|rows| - 1]);
      var last := StepCount(rows[|rows| - 1]);
      assert forall i :: 0 <= i < |rows| - 1 ==> rows[..|rows| - 1][i] == rows[i];
      if last > m then last else m
  }

  /** `slide_cells['ann_steps'] > ann_step`. */
  function MoreSteps(k: int): CellRow -> bool {
    (row: CellRow) => StepCount(row) > k
  }

  /** The rows of pass `k`. */
  function SessionSubset(rows: seq<CellRow>, k: int): seq<CellRow> {
    FilterRows(rows, MoreSteps(k))
  }

  /** Every pass the loop makes has at least one row. */
  lemma {:induction false} SessionSubsetNonEmpty(rows: seq<CellRow>, k: int)
    requires rows != [] && 0 <= k < MaxStepCount(rows)
    ensures |SessionSubset(rows, k)| > 0
  {
    var i :| 0 <= i < |rows| && StepCount(rows[i]) == MaxStepCount(rows);
    FilterIsSelection(rows, MoreSteps(k));
    WhereComplete(|rows|, RowMask(rows, MoreSteps(k)), i);
  }

  /** On the rows of pass `k`, the k-th label always exists: the parser never raises. */
  lemma SessionLabelsExist(rows: seq<CellRow>, k: int)
    requires k >= 0
    ensures forall i :: 0 <= i < |SessionSubset(rows, k)| ==> RunCellLabel(SessionSubset(rows, k)[i], Step(k)).Ok?
  {
    var sub := SessionSubset(rows, k);
    forall i | 0 <= i < |sub| ensures RunCellLabel(sub[i], Step(k)).Ok? {
      assert MoreSteps(k)(sub[i]);
    }
  }

  /** Filtering by a stronger test after a weaker one is filtering by the stronger test. */
  lemma {:induction false} FilterFilter<T>(rows: seq<T>, p: T -> bool, q: T -> bool)
    requires forall x :: q(x) ==> p(x)
    ensures FilterRows(FilterRows(rows, p), q) == FilterRows(rows, q)
    decreases |rows|
  {
    if rows != [] {
      var prefix := rows[..|rows| - 1];
      var last := rows[|rows| - 1];
      FilterFilter(prefix, p, q);
      var fp := FilterRows(prefix, p);
      if p(last) {
        assert FilterRows(rows, p) == fp + [last];
        assert (fp + [last])[..|fp + [last]| - 1] == fp;
      } else {
        assert FilterRows(rows, p) == fp;
      }
    }
  }

  /** Passes are nested: the rows of a later pass are the earlier pass's rows that reach it, in order. */
  lemma SessionSubsetsNested(rows: seq<CellRow>, j: int, k: int)
    requires j <= k
    ensures FilterRows(SessionSubset(rows, j), MoreSteps(k)) == SessionSubset(rows, k)
  {
    FilterFilter(rows, MoreSteps(j), MoreSteps(k));
  }

  // ---------------------------------------------------------------------------
  // The files a run writes

  /** A file the run writes: the slide it belongs to, its name, and its instance number. */
  datatype Job = Job(slide: nat, path: string, instance: int)

  /** `list(range(slide_cells['ann_steps'].max()))`. */
  function AnnSteps(slideCells: seq<CellRow>): (steps: seq<int>)
    requires slideCells != []
    ensures |steps| == MaxStepCount(slideCells) && forall k :: 0 <= k < |steps| ==> steps[k] == k
  {
    seq(MaxStepCount(slideCells), k requires 0 <= k => k)
  }

  /** The cell files of a slide: one per pass with instance `k + 1`, then consensus with `ann_steps[-1] + 1`. */
  function CellJobs(outputDir: string, slideId: string, s: nat, slideCells: seq<CellRow>): seq<Job>
    requires slideCells != []
  {
    var steps := AnnSteps(slideCells);
    seq(|steps|, k requires 0 <= k < |steps| =>
      Job(s, OutputPath(outputDir, slideId, "cell", Some(Step(steps[k]))), steps[k] + 1))
    + [Job(s, OutputPath(outputDir, slideId, "cell", Some(Named("consensus"))), steps[|steps| - 1] + 1)]
  }

  /** The files of slide number `s`: the ROI file when it has ROIs, then its cell files when it has cells. */
  function SlideJobs(outputDir: string, slideId: string, s: nat, slideRois: seq<RoiRow>, slideCells: seq<CellRow>)
    : seq<Job>
  {
    RoiJobs(outputDir, slideId, s, slideRois) + (if slideCells != [] then CellJobs(outputDir, slideId, s, slideCells) else [])
  }

  /** The ROI file of a slide, when it has ROIs, with instance number 1. */
  function RoiJobs(outputDir: string, slideId: string, s: nat, slideRois: seq<RoiRow>): seq<Job> {
    if slideRois != [] then [Job(s, OutputPath(outputDir, slideId, "roi", None), 1)] else []
  }

  /**
   * The cell files of a slide: the pass files have instances 1, 2, ... in order, and
   * the consensus file repeats the instance number of the last pass.
   */
  lemma CellJobNumbers(outputDir: string, slideId: string, s: nat, slideCells: seq<CellRow>)
    requires slideCells != []
    ensures var jobs := CellJobs(outputDir, slideId, s, slideCells);
      && |jobs| == MaxStepCount(slideCells) + 1
      && (forall k :: 0 <= k < |jobs| - 1 ==> jobs[k].instance == k + 1)
      && jobs[|jobs| - 1].instance == jobs[|jobs| - 2].instance
      && (forall i, j :: 0 <= i < j < |jobs| ==> jobs[i].path != jobs[j].path)
  {
    var jobs := CellJobs(outputDir, slideId, s, slideCells);
    var m := MaxStepCount(slideCells);
    forall i, j | 0 <= i < j < |jobs| ensures jobs[i].path != jobs[j].path {
      if j < m {
        OutputPathsDistinct(outputDir, slideId, Step(i), Step(j));
      } else {
        OutputPathsDistinct(outputDir, slideId, Step(i), Named("consensus"));
      }
    }
  }

  /**
   * A slide with both ROIs and cells writes two different files with instance number 1
   * in the same series: the ROI file and the file of step 0.
   */
  lemma InstanceOneShared(outputDir: string, slideId: string, s: nat, slideRois: seq<RoiRow>,
                          slideCells: seq<CellRow>)
    requires slideRois != [] && slideCells != []
    ensures var jobs := SlideJobs(outputDir, slideId, s, slideRois, slideCells);
      && |jobs| >= 3 && jobs[0].slide == jobs[1].slide
      && jobs[0].path == OutputPath(outputDir, slideId, "roi", None)
      && jobs[1].path == OutputPath(outputDir, slideId, "cell", Some(Step(0)))
      && jobs[0].instance == 1 && jobs[1].instance == 1 && jobs[0].path != jobs[1].path
  {
    var cellJobs := CellJobs(outputDir, slideId, s, slideCells);
    CellJobNumbers(outputDir, slideId, s, slideCells);
    OutputPathsDistinct(outputDir, slideId, Step(0), Named("consensus"));
    assert cellJobs[0].path == OutputPath(outputDir, slideId, "cell", Some(Step(0)));
  }

  // ---------------------------------------------------------------------------
  // Passes and the run loop

  /** A written file: its name and the object `save_as` writes there. */
  datatype Saved = Saved(path: string, dcm: BulkAnnotations<Coordinate>)

  /** Why a run stops: an uncaught exception, or a slide folder without a file to read. */
  datatype Abort = Crash(error: Exception) | NoBaseLevel(slideId: string)

  /** A slide folder: its name, its files, and the crop offset of its MRXS image. */
  datatype SlideFolder = SlideFolder(slideId: string, levels: seq<Level>, bounds: Bounds)

  /** What indexing the None a failed stage returned raises in the next stage. */
  const NoneNotSubscriptable := TypeError("'NoneType' object is not subscriptable")

  /** The graphic and coordinate types are known and the graphic type is supported. */
  predicate NamesOk(graphicTypeName: string, coordinateTypeName: string) {
    && ParseGraphicType(graphicTypeName).Ok? && ParseCoordinateType(coordinateTypeName).Ok?
    && Supported(ParseGraphicType(graphicTypeName).value)
  }

  /** A saved object carries the file's instance number, the slide's series UID and series number 33. */
  predicate SavedAs(saved: Saved, path: string, instance: int, seriesUid: Uid) {
    && saved.path == path && saved.dcm.instanceNumber == instance
    && saved.dcm.seriesUid == seriesUid && saved.dcm.seriesNumber == AnnotationSeriesNumber
  }

  /**
   * The ROI pass of a slide: parse, project, encode with instance number 1, save. It
   * writes its file exactly when there are ROIs, the type names are usable and the ROI
   * table has the 'region_of_interest' entry; otherwise the None of the failing stage
   * makes the next stage raise.
   */
  method RoiPass(
    data: Data, slideId: string, rows: seq<RoiRow>, bounds: Bounds, outputDir: string, seriesUid: Uid,
    graphicTypeName: string, coordinateTypeName: string, cellLabels: map<string, CodePair>,
    roiLabels: map<string, CodePair>, uidBase: nat)
    returns (saved: Option<Saved>, abort: Option<Abort>, used: nat)
    requires SlideIdKey in data.entries && data.entries[SlideIdKey] == Text(slideId)
    modifies data
    ensures SlideIdKey in data.entries && data.entries[SlideIdKey] == Text(slideId)
    ensures abort.None? <==> saved.Some?
    ensures abort.None? <==> rows != [] && NamesOk(graphicTypeName, coordinateTypeName) && RoiLabel in roiLabels
    ensures saved.Some? ==> SavedAs(saved.value, OutputPath(outputDir, slideId, "roi", None), 1, seriesUid)
    ensures rows != [] && abort.Some? ==> abort.value == Crash(NoneNotSubscriptable)
  {
    ParseRoiAnnotations(data, rows);
    var g := ParseAnnotationsToGraphicData(data, bounds, graphicTypeName, coordinateTypeName);
    if g.ReturnedNone? {
      return None, Some(Crash(NoneNotSubscriptable)), 0;
    }
    if g.Raised? {
      return None, Some(Crash(g.error)), 0;
    }
    assert RoiReady(data.entries);
    saved, abort, used := RoiSave(data, slideId, outputDir, seriesUid, graphicTypeName, coordinateTypeName,
                                  cellLabels, roiLabels, uidBase);
  }

  /** The last stages of the ROI pass: encode the graphic data, save as the slide's ROI file. */
  method RoiSave(
    data: Data, slideId: string, outputDir: string, seriesUid: Uid, graphicTypeName: string,
    coordinateTypeName: string, cellLabels: map<string, CodePair>, roiLabels: map<string, CodePair>, uidBase: nat)
    returns (saved: Option<Saved>, abort: Option<Abort>, used: nat)
    requires SlideIdKey in data.entries && data.entries[SlideIdKey] == Text(slideId)
    requires RoiReady(data.entries)
    modifies data
    ensures SlideIdKey in data.entries && data.entries[SlideIdKey] == Text(slideId)
    ensures abort.None? <==> saved.Some?
    ensures abort.None? <==>
      ParseGraphicType(graphicTypeName).Ok? && ParseCoordinateType(coordinateTypeName).Ok? && RoiLabel in roiLabels
    ensures saved.Some? ==> SavedAs(saved.value, OutputPath(outputDir, slideId, "roi", None), 1, seriesUid)
    ensures abort.Some? ==> abort.value == Crash(NoneNotSubscriptable)
  {
    var e;
    e, used := CreateDcmAnnotations(data, seriesUid, 1, graphicTypeName, coordinateTypeName, "", cellLabels,
                                    roiLabels, uidBase);
    if e.ReturnedNone? {
      return None, Some(Crash(NoneNotSubscriptable)), used;
    }
    var path := OutputPath(outputDir, data.entries[SlideIdKey].text, data.entries[AnnTypeKey].text, None);
    return Some(Saved(path, data.entries[AnnDcmKey].dcm)), None, used;
  }

  /**
   * One cell pass: parse the rows for the session, project, encode with the given
   * instance number, save under the session's name. It writes its file exactly when
   * every row has a label for the session, there is a row, and the type names are usable.
   */
  method CellPass(
    data: Data, slideId: string, rows: seq<CellRow>, session: Session, instance: int, bounds: Bounds,
    outputDir: string, seriesUid: Uid, graphicTypeName: string, coordinateTypeName: string,
    cellLabels: map<string, CodePair>, roiLabels: map<string, CodePair>, uidBase: nat)
    returns (saved: Option<Saved>, abort: Option<Abort>, used: nat)
    requires SlideIdKey in data.entries && data.entries[SlideIdKey] == Text(slideId)
    modifies data
    ensures SlideIdKey in data.entries && data.entries[SlideIdKey] == Text(slideId)
    ensures abort.None? <==> saved.Some?
    ensures abort.None? <==>
      && (forall i :: 0 <= i < |rows| ==> RunCellLabel(rows[i], session).Ok?)
      && rows != [] && NamesOk(graphicTypeName, coordinateTypeName)
    ensures saved.Some? ==> SavedAs(saved.value, OutputPath(outputDir, slideId, "cell", Some(session)), instance, seriesUid)
    ensures (forall i :: 0 <= i < |rows| ==> RunCellLabel(rows[i], session).Ok?) && rows != [] && abort.Some? ==>
      abort.value == Crash(NoneNotSubscriptable)
  {
    var err := ParseCellAnnotations(data, rows, session);
    if err.Some? {
      return None, Some(Crash(err.value)), 0;
    }
    saved, abort, used := CellEncode(data, slideId, rows, session, instance, bounds, outputDir, seriesUid,
                                     graphicTypeName, coordinateTypeName, cellLabels, roiLabels, uidBase);
  }

  /** The stages of a cell pass after its records are parsed: project, encode, save. */
  method CellEncode(
    data: Data, slideId: string, rows: seq<CellRow>, session: Session, instance: int, bounds: Bounds,
    outputDir: string, seriesUid: Uid, graphicTypeName: string, coordinateTypeName: string,
    cellLabels: map<string, CodePair>, roiLabels: map<string, CodePair>, uidBase: nat)
    returns (saved: Option<Saved>, abort: Option<Abort>, used: nat)
    requires SlideIdKey in data.entries && data.entries[SlideIdKey] == Text(slideId)
    requires AnnTypeKey in data.entries && data.entries[AnnTypeKey] == Text("cell")
    requires AnnKey in data.entries && data.entries[AnnKey].Anns?
    requires AllCells(data.entries[AnnKey].anns) && |data.entries[AnnKey].anns| == |rows|
    modifies data
    ensures SlideIdKey in data.entries && data.entries[SlideIdKey] == Text(slideId)
    ensures abort.None? <==> saved.Some?
    ensures abort.None? <==> rows != [] && NamesOk(graphicTypeName, coordinateTypeName)
    ensures saved.Some? ==> SavedAs(saved.value, OutputPath(outputDir, slideId, "cell", Some(session)), instance, seriesUid)
    ensures rows != [] && abort.Some? ==> abort.value == Crash(NoneNotSubscriptable)
  {
    var g := ParseAnnotationsToGraphicData(data, bounds, graphicTypeName, coordinateTypeName);
    if g.ReturnedNone? {
      return None, Some(Crash(NoneNotSubscriptable)), 0;
    }
    if g.Raised? {
      return None, Some(Crash(g.error)), 0;
    }
    assert CellReady(data.entries);
    saved, abort, used := CellSave(data, slideId, session, instance, outputDir, seriesUid, graphicTypeName,
                                   coordinateTypeName, cellLabels, roiLabels, uidBase);
  }

  /** The last stages of a cell pass: encode the graphic data, save under the session's name. */
  method CellSave(
    data: Data, slideId: string, session: Session, instance: int, outputDir: string, seriesUid: Uid,
    graphicTypeName: string, coordinateTypeName: string, cellLabels: map<string, CodePair>,
    roiLabels: map<string, CodePair>, uidBase: nat)
    returns (saved: Option<Saved>, abort: Option<Abort>, used: nat)
    requires SlideIdKey in data.entries && data.entries[SlideIdKey] == Text(slideId)
    requires CellReady(data.entries) && data.entries[AnnTypeKey] == Text("cell")
    modifies data
    ensures SlideIdKey in data.entries && data.entries[SlideIdKey] == Text(slideId)
    ensures abort.None? <==> saved.Some?
    ensures abort.None? <==> ParseGraphicType(graphicTypeName).Ok? && ParseCoordinateType(coordinateTypeName).Ok?
    ensures saved.Some? ==> SavedAs(saved.value, OutputPath(outputDir, slideId, "cell", Some(session)), instance, seriesUid)
    ensures abort.Some? ==> abort.value == Crash(NoneNotSubscriptable)
  {
    var e;
    e, used := CreateDcmAnnotations(data, seriesUid, instance, graphicTypeName, coordinateTypeName,
                                    SessionText(session), cellLabels, roiLabels, uidBase);
    if e.ReturnedNone? {
      return None, Some(Crash(NoneNotSubscriptable)), used;
    }
    var path := OutputPath(outputDir, data.entries[SlideIdKey].text, data.entries[AnnTypeKey].text, Some(session));
    return Some(Saved(path, data.entries[AnnDcmKey].dcm)), None, used;
  }

  /** A slide folder holds a file with a positive size. */
  predicate HasBaseLevel(levels: seq<Level>) {
    exists j :: 0 <= j < |levels| && levels[j].size > 0
  }

  /** The rows of one slide. */
  function SlideRois(rois: seq<RoiRow>, slideId: string): seq<RoiRow> {
    FilterRows(rois, RoiOnSlide(slideId))
  }

  function SlideCells(cells: seq<CellRow>, slideId: string): seq<CellRow> {
    FilterRows(cells, CellOnSlide(slideId))
  }

  /**
   * The files a slide folder should produce: the rows are those of the folder's name,
   * the file names are built from its stem, the `slide_id` of the data dict.
   */
  function FolderJobs(outputDir: string, slide: SlideFolder, s: nat, cells: seq<CellRow>, rois: seq<RoiRow>): seq<Job> {
    SlideJobs(outputDir, Stem(slide.slideId), s, SlideRois(rois, slide.slideId), SlideCells(cells, slide.slideId))
  }

  /**
   * A slide converts without an exception: its folder has a readable file, and the
   * type names (and, for ROIs, the ROI code) are usable whenever it has rows to encode.
   */
  predicate SlideOk(slide: SlideFolder, cells: seq<CellRow>, rois: seq<RoiRow>, graphicTypeName: string,
                    coordinateTypeName: string, roiLabels: map<string, CodePair>) {
    && HasBaseLevel(slide.levels)
    && (SlideRois(rois, slide.slideId) != [] ==> NamesOk(graphicTypeName, coordinateTypeName) && RoiLabel in roiLabels)
    && (SlideCells(cells, slide.slideId) != [] ==> NamesOk(graphicTypeName, coordinateTypeName))
  }

  /** The saved objects are the first files of `jobs`, in order, all in series `seriesUid`. */
  predicate SavedPrefix(outputs: seq<Saved>, jobs: seq<Job>, seriesUid: Uid) {
    && |outputs| <= |jobs|
    && forall i :: 0 <= i < |outputs| ==> SavedAs(outputs[i], jobs[i].path, jobs[i].instance, seriesUid)
  }

  /**
   * The body of the run loop for one slide folder: read the base level, then the ROI
   * pass, the passes over the annotation sessions and the consensus pass, all on one
   * shared data dict. The files it writes are a prefix of the slide's files, all of
   * them when it does not stop; it stops exactly when the slide is not convertible, and
   * then with the TypeError of indexing a None (or at the missing base level).
   */
  method ConvertSlide(
    slide: SlideFolder, s: nat, cells: seq<CellRow>, rois: seq<RoiRow>, outputDir: string, seriesUid: Uid,
    graphicTypeName: string, coordinateTypeName: string, cellLabels: map<string, CodePair>,
    roiLabels: map<string, CodePair>, uidBase: nat)
    returns (outputs: seq<Saved>, abort: Option<Abort>, used: nat)
    ensures SavedPrefix(outputs, FolderJobs(outputDir, slide, s, cells, rois), seriesUid)
    ensures abort.None? ==> |outputs| == |FolderJobs(outputDir, slide, s, cells, rois)|
    ensures abort.None? <==> SlideOk(slide, cells, rois, graphicTypeName, coordinateTypeName, roiLabels)
    ensures abort.Some? ==> abort.value == if HasBaseLevel(slide.levels) then Crash(NoneNotSubscriptable)
                                           else NoBaseLevel(slide.slideId)
  {
    var id := slide.slideId;
    var base := FindBaseLevel(slide.levels);
    if base.None? {
      return [], Some(NoBaseLevel(id)), 0;
    }
    var data := new Data(map[SlideIdKey := Text(Stem(id)), SourceImageKey := SourceImage(base.value)]);
    outputs, abort, used := SlidePasses(data, Stem(id), s, SlideRois(rois, id), SlideCells(cells, id), slide.bounds,
                                        outputDir, seriesUid, graphicTypeName, coordinateTypeName, cellLabels,
                                        roiLabels, uidBase);
  }

  /** The passes of one slide on its data dict: the ROI pass when it has ROIs, then its cell passes. */
  method SlidePasses(
    data: Data, id: string, s: nat, slideRois: seq<RoiRow>, slideCells: seq<CellRow>, bounds: Bounds,
    outputDir: string, seriesUid: Uid, graphicTypeName: string, coordinateTypeName: string,
    cellLabels: map<string, CodePair>, roiLabels: map<string, CodePair>, uidBase: nat)
    returns (outputs: seq<Saved>, abort: Option<Abort>, used: nat)
    requires SlideIdKey in data.entries && data.entries[SlideIdKey] == Text(id)
    modifies data
    ensures SavedPrefix(outputs, SlideJobs(outputDir, id, s, slideRois, slideCells), seriesUid)
    ensures abort.None? ==> |outputs| == |SlideJobs(outputDir, id, s, slideRois, slideCells)|
    ensures abort.None? <==>
      && (slideRois != [] ==> NamesOk(graphicTypeName, coordinateTypeName) && RoiLabel in roiLabels)
      && (slideCells != [] ==> NamesOk(graphicTypeName, coordinateTypeName))
    ensures abort.Some? ==> abort.value == Crash(NoneNotSubscriptable)
  {
    outputs, abort, used := [], None, 0;
    var roiOutputs, cellOutputs := [], [];
    if |slideRois| > 0 {
      var saved, a, u := RoiPass(data, id, slideRois, bounds, outputDir, seriesUid, graphicTypeName,
                                 coordinateTypeName, cellLabels, roiLabels, uidBase);
      used := u;
      if a.Some? {
        return [], a, used;
      }
      roiOutputs := [saved.value];
    }
    assert SavedPrefix(roiOutputs, RoiJobs(outputDir, id, s, slideRois), seriesUid);
    if |slideCells| > 0 {
      var u;
      cellOutputs, abort, u := CellPasses(data, id, s, slideCells, bounds, outputDir, seriesUid, graphicTypeName,
                                          coordinateTypeName, cellLabels, roiLabels, uidBase + used);
      used := used + u;
    }
    SavedPrefixAppend(roiOutputs, RoiJobs(outputDir, id, s, slideRois), cellOutputs,
                      if slideCells != [] then CellJobs(outputDir, id, s, slideCells) else [], seriesUid);
    outputs := roiOutputs + cellOutputs;
  }

  /** Saving all files of one list and then a prefix of a second saves a prefix of the two. */
  lemma SavedPrefixAppend(a: seq<Saved>, ja: seq<Job>, b: seq<Saved>, jb: seq<Job>, seriesUid: Uid)
    requires SavedPrefix(a, ja, seriesUid) && |a| == |ja| && SavedPrefix(b, jb, seriesUid)
    ensures SavedPrefix(a + b, ja + jb, seriesUid)
    ensures |b| == |jb| ==> |a + b| == |ja + jb|
  {
    forall i | |a| <= i < |a + b|
      ensures SavedAs((a + b)[i], (ja + jb)[i].path, (ja + jb)[i].instance, seriesUid)
    {
      assert (a + b)[i] == b[i - |a|] && (ja + jb)[i] == jb[i - |a|];
    }
  }

  /**
   * The passes of one slide's cells: pass `k` encodes the rows with more than `k`
   * labels, labelled by their k-th label, as instance `k + 1`; then the consensus
   * labels of all rows, as the instance of the last pass.
   */
  method CellPasses(
    data: Data, slideId: string, s: nat, slideCells: seq<CellRow>, bounds: Bounds, outputDir: string,
    seriesUid: Uid, graphicTypeName: string, coordinateTypeName: string, cellLabels: map<string, CodePair>,
    roiLabels: map<string, CodePair>, uidBase: nat)
    returns (outputs: seq<Saved>, abort: Option<Abort>, used: nat)
    requires SlideIdKey in data.entries && data.entries[SlideIdKey] == Text(slideId)
    requires slideCells != []
    modifies data
    ensures SavedPrefix(outputs, CellJobs(outputDir, slideId, s, slideCells), seriesUid)
    ensures abort.None? ==> |outputs| == |CellJobs(outputDir, slideId, s, slideCells)|
    ensures abort.None? <==> NamesOk(graphicTypeName, coordinateTypeName)
    ensures abort.Some? ==> abort.value == Crash(NoneNotSubscriptable)
  {
    outputs, abort, used := SessionPasses(data, slideId, slideCells, bounds, outputDir, seriesUid, graphicTypeName,
                                          coordinateTypeName, cellLabels, roiLabels, uidBase);
    SessionsSavedPrefix(outputs, outputDir, slideId, s, slideCells, seriesUid);
    if abort.Some? {
      return;
    }
    var steps := AnnSteps(slideCells);
    var saved, a, u := ConsensusPass(data, slideId, slideCells, steps[|steps| - 1] + 1, bounds, outputDir,
                                     seriesUid, graphicTypeName, coordinateTypeName, cellLabels, roiLabels,
                                     uidBase + used);
    used := used + u;
    if a.Some? {
      return outputs, a, used;
    }
    ConsensusSaved(outputs, saved.value, outputDir, slideId, s, slideCells, seriesUid);
    outputs := outputs + [saved.value];
  }

  /** The session loop: pass `k` for each `k` in `range(ann_steps.max())`, stopping at the first failure. */
  method SessionPasses(
    data: Data, slideId: string, slideCells: seq<CellRow>, bounds: Bounds, outputDir: string, seriesUid: Uid,
    graphicTypeName: string, coordinateTypeName: string, cellLabels: map<string, CodePair>,
    roiLabels: map<string, CodePair>, uidBase: nat)
    returns (outputs: seq<Saved>, abort: Option<Abort>, used: nat)
    requires SlideIdKey in data.entries && data.entries[SlideIdKey] == Text(slideId)
    requires slideCells != []
    modifies data
    ensures SlideIdKey in data.entries && data.entries[SlideIdKey] == Text(slideId)
    ensures |AnnSteps(slideCells)| > 0
    ensures |outputs| <= MaxStepCount(slideCells) && SessionsSaved(outputs, outputDir, slideId, seriesUid)
    ensures abort.None? ==> |outputs| == MaxStepCount(slideCells)
    ensures abort.None? <==> NamesOk(graphicTypeName, coordinateTypeName)
    ensures abort.Some? ==> abort.value == Crash(NoneNotSubscriptable)
  {
    outputs, used := [], 0;
    var steps := AnnSteps(slideCells);
    MaxStepCountPositive(slideCells);
    for k := 0 to |steps|
      invariant SlideIdKey in data.entries && data.entries[SlideIdKey] == Text(slideId)
      invariant |outputs| == k && SessionsSaved(outputs, outputDir, slideId, seriesUid)
      invariant k > 0 ==> NamesOk(graphicTypeName, coordinateTypeName)
    {
      var saved, a, u := SessionPass(data, slideId, slideCells, steps[k], bounds, outputDir, seriesUid,
                                     graphicTypeName, coordinateTypeName, cellLabels, roiLabels, uidBase + used);
      used := used + u;
      if a.Some? {
        return outputs, a, used;
      }
      SessionsSavedSnoc(outputs, saved.value, outputDir, slideId, seriesUid);
      outputs := outputs + [saved.value];
    }
    abort := None;
  }

  lemma MaxStepCountPositive(rows: seq<CellRow>)
    requires rows != []
    ensures MaxStepCount(rows) >= 1
  {
    assert StepCount(rows[0]) <= MaxStepCount(rows);
  }

  lemma SessionsSavedSnoc(outputs: seq<Saved>, next: Saved, outputDir: string, slideId: string, seriesUid: Uid)
    requires SessionsSaved(outputs, outputDir, slideId, seriesUid)
    requires SavedAs(next, OutputPath(outputDir, slideId, "cell", Some(Step(|outputs|))), |outputs| + 1, seriesUid)
    ensures SessionsSaved(outputs + [next], outputDir, slideId, seriesUid)
  {
    var all := outputs + [next];
    forall i | 0 <= i < |outputs| ensures all[i] == outputs[i] {
    }
  }

  /** The consensus pass: every row, labelled by its consensus label, as the given instance. */
  method ConsensusPass(
    data: Data, slideId: string, slideCells: seq<CellRow>, instance: int, bounds: Bounds, outputDir: string,
    seriesUid: Uid, graphicTypeName: string, coordinateTypeName: string, cellLabels: map<string, CodePair>,
    roiLabels: map<string, CodePair>, uidBase: nat)
    returns (saved: Option<Saved>, abort: Option<Abort>, used: nat)
    requires SlideIdKey in data.entries && data.entries[SlideIdKey] == Text(slideId)
    requires slideCells != []
    modifies data
    ensures SlideIdKey in data.entries && data.entries[SlideIdKey] == Text(slideId)
    ensures abort.None? <==> saved.Some?
    ensures abort.None? <==> NamesOk(graphicTypeName, coordinateTypeName)
    ensures saved.Some? ==>
      SavedAs(saved.value, OutputPath(outputDir, slideId, "cell", Some(Named("consensus"))), instance, seriesUid)
    ensures abort.Some? ==> abort.value == Crash(NoneNotSubscriptable)
  {
    saved, abort, used := CellPass(data, slideId, slideCells, Named("consensus"), instance, bounds, outputDir,
                                   seriesUid, graphicTypeName, coordinateTypeName, cellLabels, roiLabels, uidBase);
  }

  /** The first passes of the session loop are saved, pass `i` as instance `i + 1`. */
  predicate SessionsSaved(outputs: seq<Saved>, outputDir: string, slideId: string, seriesUid: Uid) {
    forall i :: 0 <= i < |outputs| ==>
      SavedAs(outputs[i], OutputPath(outputDir, slideId, "cell", Some(Step(i))), i + 1, seriesUid)
  }

  lemma SessionsSavedPrefix(
    outputs: seq<Saved>, outputDir: string, slideId: string, s: nat, slideCells: seq<CellRow>, seriesUid: Uid)
    requires slideCells != [] && |outputs| <= MaxStepCount(slideCells)
    requires SessionsSaved(outputs, outputDir, slideId, seriesUid)
    ensures SavedPrefix(outputs, CellJobs(outputDir, slideId, s, slideCells), seriesUid)
  {
    CellJobsAt(outputDir, slideId, s, slideCells);
  }

  lemma ConsensusSaved(
    outputs: seq<Saved>, last: Saved, outputDir: string, slideId: string, s: nat, slideCells: seq<CellRow>,
    seriesUid: Uid)
    requires slideCells != [] && |outputs| == MaxStepCount(slideCells)
    requires SessionsSaved(outputs, outputDir, slideId, seriesUid)
    requires SavedAs(last, OutputPath(outputDir, slideId, "cell", Some(Named("consensus"))), |outputs|, seriesUid)
    ensures SavedPrefix(outputs + [last], CellJobs(outputDir, slideId, s, slideCells), seriesUid)
    ensures |outputs + [last]| == |CellJobs(outputDir, slideId, s, slideCells)|
  {
    CellJobsAt(outputDir, slideId, s, slideCells);
    var all := outputs + [last];
    var jobs := CellJobs(outputDir, slideId, s, slideCells);
    var steps := AnnSteps(slideCells);
    forall i | 0 <= i < |all| ensures SavedAs(all[i], jobs[i].path, jobs[i].instance, seriesUid) {
      if i < |outputs| {
        assert all[i] == outputs[i] && steps[i] == i;
      } else {
        assert all[i] == last && steps[|steps| - 1] == |outputs| - 1;
      }
    }
  }

  /** Pass `k` of the session loop: the rows with more than `k` labels, as instance `k + 1`. */
  method SessionPass(
    data: Data, slideId: string, slideCells: seq<CellRow>, k: nat, bounds: Bounds, outputDir: string,
    seriesUid: Uid, graphicTypeName: string, coordinateTypeName: string, cellLabels: map<string, CodePair>,
    roiLabels: map<string, CodePair>, uidBase: nat)
    returns (saved: Option<Saved>, abort: Option<Abort>, used: nat)
    requires SlideIdKey in data.entries && data.entries[SlideIdKey] == Text(slideId)
    requires slideCells != [] && k < MaxStepCount(slideCells)
    modifies data
    ensures SlideIdKey in data.entries && data.entries[SlideIdKey] == Text(slideId)
    ensures abort.None? <==> saved.Some?
    ensures abort.None? <==> NamesOk(graphicTypeName, coordinateTypeName)
    ensures saved.Some? ==> SavedAs(saved.value, OutputPath(outputDir, slideId, "cell", Some(Step(k))), k + 1, seriesUid)
    ensures abort.Some? ==> abort.value == Crash(NoneNotSubscriptable)
  {
    var subset := SessionSubset(slideCells, k);
    SessionSubsetNonEmpty(slideCells, k);
    SessionLabelsExist(slideCells, k);
    saved, abort, used := CellPass(data, slideId, subset, Step(k), k + 1, bounds, outputDir, seriesUid,
                                   graphicTypeName, coordinateTypeName, cellLabels, roiLabels, uidBase);
  }

  /** The cell files one by one: pass `k` as instance `k + 1`, then consensus as the last pass's instance. */
  lemma CellJobsAt(outputDir: string, slideId: string, s: nat, slideCells: seq<CellRow>)
    requires slideCells != []
    ensures var jobs := CellJobs(outputDir, slideId, s, slideCells);
      var steps := AnnSteps(slideCells);
      && |steps| > 0 && |jobs| == |steps| + 1
      && (forall k :: 0 <= k < |steps| ==>
            && jobs[k].path == OutputPath(outputDir, slideId, "cell", Some(Step(steps[k])))
            && jobs[k].instance == steps[k] + 1)
      && jobs[|steps|].path == OutputPath(outputDir, slideId, "cell", Some(Named("consensus")))
      && jobs[|steps|].instance == steps[|steps| - 1] + 1
  {
    var i0 :| 0 <= i0 < |slideCells| && StepCount(slideCells[i0]) == MaxStepCount(slideCells);
  }

  /** The files of each slide folder, in folder order. */
  function FolderJobLists(outputDir: string, slides: seq<SlideFolder>, cells: seq<CellRow>, rois: seq<RoiRow>)
    : (r: seq<seq<Job>>)
    ensures |r| == |slides|
  {
    seq(|slides|, s requires 0 <= s < |slides| => FolderJobs(outputDir, slides[s], s, cells, rois))
  }

  /** The files of a run: each slide folder's files, in folder order. */
  function Schedule(outputDir: string, slides: seq<SlideFolder>, cells: seq<CellRow>, rois: seq<RoiRow>): seq<Job> {
    Flatten(FolderJobLists(outputDir, slides, cells, rois))
  }

  /** Every file of a folder is numbered with the folder's position. */
  lemma FolderJobsSlide(outputDir: string, slide: SlideFolder, s: nat, cells: seq<CellRow>, rois: seq<RoiRow>)
    ensures forall i :: 0 <= i < |FolderJobs(outputDir, slide, s, cells, rois)| ==>
      FolderJobs(outputDir, slide, s, cells, rois)[i].slide == s
  {
    SlideJobsSlide(outputDir, Stem(slide.slideId), s, SlideRois(rois, slide.slideId), SlideCells(cells, slide.slideId));
  }

  lemma SlideJobsSlide(outputDir: string, slideId: string, s: nat, slideRois: seq<RoiRow>, slideCells: seq<CellRow>)
    ensures forall i :: 0 <= i < |SlideJobs(outputDir, slideId, s, slideRois, slideCells)| ==>
      SlideJobs(outputDir, slideId, s, slideRois, slideCells)[i].slide == s
  {
    var a := RoiJobs(outputDir, slideId, s, slideRois);
    var b := if slideCells != [] then CellJobs(outputDir, slideId, s, slideCells) else [];
    assert SlideJobs(outputDir, slideId, s, slideRois, slideCells) == a + b;
    assert forall i :: 0 <= i < |b| ==> b[i].slide == s;
  }

  /** Concatenated lists whose files all belong to slides below `bound` hold only such files. */
  lemma {:induction false} FlattenSlidesBelow(parts: seq<seq<Job>>, bound: nat)
    requires forall s, i :: 0 <= s < |parts| && 0 <= i < |parts[s]| ==> parts[s][i].slide < bound
    ensures forall i :: 0 <= i < |Flatten(parts)| ==> Flatten(parts)[i].slide < bound
    decreases |parts|
  {
    if parts != [] {
      var n := |parts| - 1;
      FlattenSlidesBelow(parts[..n], bound);
      var pre := Flatten(parts[..n]);
      assert Flatten(parts) == pre + parts[n];
      forall i | |pre| <= i < |pre + parts[n]| ensures (pre + parts[n])[i].slide < bound {
        assert (pre + parts[n])[i] == parts[n][i - |pre|];
      }
    }
  }

  /** Every file of the schedule belongs to one of the listed slides. */
  lemma ScheduleSlides(outputDir: string, slides: seq<SlideFolder>, cells: seq<CellRow>, rois: seq<RoiRow>)
    ensures forall i :: 0 <= i < |Schedule(outputDir, slides, cells, rois)| ==>
      Schedule(outputDir, slides, cells, rois)[i].slide < |slides|
  {
    var parts: seq<seq<Job>> := FolderJobLists(outputDir, slides, cells, rois);
    forall s: nat, i: nat | s < |parts| && i < |parts[s]| ensures parts[s][i].slide < |slides| {
      FolderJobsSlide(outputDir, slides[s], s, cells, rois);
    }
    FlattenSlidesBelow(parts, |slides|);
  }

  /** The job lists of the first `t` folders are the first `t` job lists. */
  lemma FolderJobListsPrefix(outputDir: string, slides: seq<SlideFolder>, t: nat, cells: seq<CellRow>, rois: seq<RoiRow>)
    requires t <= |slides|
    ensures FolderJobLists(outputDir, slides[..t], cells, rois) == FolderJobLists(outputDir, slides, cells, rois)[..t]
  {
  }

  /** Converting one more folder adds that folder's files at the end. */
  lemma ScheduleSnoc(outputDir: string, slides: seq<SlideFolder>, t: nat, cells: seq<CellRow>, rois: seq<RoiRow>)
    requires t < |slides|
    ensures Schedule(outputDir, slides[..t + 1], cells, rois)
         == Schedule(outputDir, slides[..t], cells, rois) + FolderJobs(outputDir, slides[t], t, cells, rois)
  {
    var whole := FolderJobLists(outputDir, slides, cells, rois);
    FolderJobListsPrefix(outputDir, slides, t + 1, cells, rois);
    FolderJobListsPrefix(outputDir, slides, t, cells, rois);
    FlattenSnoc(whole, t);
  }

  /** The files of the first `t` folders are the first files of the run. */
  lemma ScheduleExtends(outputDir: string, slides: seq<SlideFolder>, t: nat, cells: seq<CellRow>, rois: seq<RoiRow>)
    requires t <= |slides|
    ensures Schedule(outputDir, slides[..t], cells, rois) <= Schedule(outputDir, slides, cells, rois)
  {
    var whole := FolderJobLists(outputDir, slides, cells, rois);
    FolderJobListsPrefix(outputDir, slides, t, cells, rois);
    assert whole == whole[..t] + whole[t..];
    FlattenAppend(whole[..t], whole[t..]);
  }

  /** The cell table after `preprocess_annotation_csvs`: the loaded rows with their labels renamed. */
  function PreprocessedCells(files: seq<CellCsv>): seq<CellRow> {
    seq(|LoadedRows(files)|, i requires 0 <= i < |LoadedRows(files)| => RenameRow(LoadedRows(files)[i]))
  }

  /**
   * `run`: preprocess the tables, then convert the slide folders in listing order, each
   * with a fresh series UID, until one raises. The objects written are the first files
   * of the schedule with its names and instance numbers, all of them exactly when every
   * slide is convertible; two objects share a series UID exactly when they belong to
   * the same slide.
   */
  method Run(
    cellFiles: seq<CellCsv>, roiFiles: seq<seq<RoiRow>>, slides: seq<SlideFolder>, outputDir: string,
    graphicTypeName: string, coordinateTypeName: string, cellLabels: map<string, CodePair>,
    roiLabels: map<string, CodePair>)
    returns (outputs: seq<Saved>, abort: Option<Abort>)
    ensures var jobs := Schedule(outputDir, slides, PreprocessedCells(cellFiles), Flatten(roiFiles));
      && |outputs| <= |jobs|
      && (forall i :: 0 <= i < |outputs| ==>
            && outputs[i].path == jobs[i].path && outputs[i].dcm.instanceNumber == jobs[i].instance
            && outputs[i].dcm.seriesNumber == AnnotationSeriesNumber)
      && (forall i, j :: 0 <= i < |outputs| && 0 <= j < |outputs| ==>
            (outputs[i].dcm.seriesUid == outputs[j].dcm.seriesUid <==> jobs[i].slide == jobs[j].slide))
      && (abort.None? ==> |outputs| == |jobs|)
    ensures abort.None? <==> forall s :: 0 <= s < |slides| ==>
      SlideOk(slides[s], PreprocessedCells(cellFiles), Flatten(roiFiles), graphicTypeName, coordinateTypeName, roiLabels)
  {
    var table := PreprocessCells(cellFiles);
    var cells := table.rows;
    assert cells == PreprocessedCells(cellFiles);
    var rois := Flatten(roiFiles);
    ghost var seriesOf;
    outputs, abort, seriesOf := ConvertFolders(slides, cells, rois, outputDir, graphicTypeName, coordinateTypeName,
                                               cellLabels, roiLabels);
    SeriesUidsBySlide(outputs, Schedule(outputDir, slides, cells, rois), seriesOf);
  }

  /**
   * The loop of `run` over the slide folders: slide `t` gets series number
   * `seriesOf[t]`, strictly increasing, and the loop stops at the first slide that raises.
   */
  method ConvertFolders(
    slides: seq<SlideFolder>, cells: seq<CellRow>, rois: seq<RoiRow>, outputDir: string, graphicTypeName: string,
    coordinateTypeName: string, cellLabels: map<string, CodePair>, roiLabels: map<string, CodePair>)
    returns (outputs: seq<Saved>, abort: Option<Abort>, ghost seriesOf: seq<nat>)
    ensures RunPrefix(outputs, Schedule(outputDir, slides, cells, rois), seriesOf)
    ensures forall a, b :: 0 <= a < b < |seriesOf| ==> seriesOf[a] < seriesOf[b]
    ensures abort.None? ==> |outputs| == |Schedule(outputDir, slides, cells, rois)|
    ensures abort.None? <==> SlidesOk(slides, |slides|, cells, rois, graphicTypeName, coordinateTypeName, roiLabels)
  {
    outputs, abort := [], None;
    var next := 0;
    seriesOf := [];
    for t := 0 to |slides|
      invariant |seriesOf| == t
      invariant forall a, b :: 0 <= a < b < t ==> seriesOf[a] < seriesOf[b]
      invariant forall a :: 0 <= a < t ==> seriesOf[a] < next
      invariant SlidesOk(slides, t, cells, rois, graphicTypeName, coordinateTypeName, roiLabels)
      invariant RunPrefix(outputs, Schedule(outputDir, slides[..t], cells, rois), seriesOf)
      invariant |outputs| == |Schedule(outputDir, slides[..t], cells, rois)|
      invariant abort.None?
    {
      outputs, seriesOf, next, abort := FolderStep(slides, t, outputs, seriesOf, next, cells, rois, outputDir,
                                                   graphicTypeName, coordinateTypeName, cellLabels, roiLabels);
      if abort.Some? {
        return;
      }
    }
    assert slides[..|slides|] == slides;
  }

  /**
   * The visit of folder `t` within the loop of `run`: the slide draws series UID
   * `next`, its files are appended, and either the loop's state moves on to the first
   * `t + 1` folders or the run stops with what it wrote so far.
   */
  method FolderStep(
    slides: seq<SlideFolder>, t: nat, outputs: seq<Saved>, ghost seriesOf: seq<nat>, next: nat, cells: seq<CellRow>,
    rois: seq<RoiRow>, outputDir: string, graphicTypeName: string, coordinateTypeName: string,
    cellLabels: map<string, CodePair>, roiLabels: map<string, CodePair>)
    returns (outputs': seq<Saved>, ghost seriesOf': seq<nat>, next': nat, abort: Option<Abort>)
    requires t < |slides| && |seriesOf| == t
    requires forall a, b :: 0 <= a < b < t ==> seriesOf[a] < seriesOf[b]
    requires forall a :: 0 <= a < t ==> seriesOf[a] < next
    requires SlidesOk(slides, t, cells, rois, graphicTypeName, coordinateTypeName, roiLabels)
    requires RunPrefix(outputs, Schedule(outputDir, slides[..t], cells, rois), seriesOf)
    requires |outputs| == |Schedule(outputDir, slides[..t], cells, rois)|
    ensures |seriesOf'| == t + 1
    ensures forall a, b :: 0 <= a < b < t + 1 ==> seriesOf'[a] < seriesOf'[b]
    ensures forall a :: 0 <= a < t + 1 ==> seriesOf'[a] < next'
    ensures abort.None? ==>
      && SlidesOk(slides, t + 1, cells, rois, graphicTypeName, coordinateTypeName, roiLabels)
      && RunPrefix(outputs', Schedule(outputDir, slides[..t + 1], cells, rois), seriesOf')
      && |outputs'| == |Schedule(outputDir, slides[..t + 1], cells, rois)|
    ensures abort.Some? ==>
      && !SlidesOk(slides, |slides|, cells, rois, graphicTypeName, coordinateTypeName, roiLabels)
      && RunPrefix(outputs', Schedule(outputDir, slides, cells, rois), seriesOf')
  {
    var seriesUid := Uid(next);
    var slideOutputs, a, used := ConvertSlide(slides[t], t, cells, rois, outputDir, seriesUid, graphicTypeName,
                                              coordinateTypeName, cellLabels, roiLabels, next + 1);
    seriesOf' := seriesOf + [next];
    next' := next + 1 + used;
    SeriesSnoc(seriesOf, next, next');
    StepAppends(outputDir, slides, t, outputs, slideOutputs, cells, rois, seriesOf');
    outputs' := outputs + slideOutputs;
    SlidesOkStep(slides, t, cells, rois, graphicTypeName, coordinateTypeName, roiLabels);
    abort := a;
    if a.Some? {
      StepStops(outputDir, slides, t, outputs', cells, rois, seriesOf');
    }
  }

  /** The files of folder `t`, saved under its series number, extend the run's prefix by that folder. */
  lemma StepAppends(
    outputDir: string, slides: seq<SlideFolder>, t: nat, outputs: seq<Saved>, slideOutputs: seq<Saved>,
    cells: seq<CellRow>, rois: seq<RoiRow>, seriesOf': seq<nat>)
    requires t < |slides| && |seriesOf'| == t + 1
    requires RunPrefix(outputs, Schedule(outputDir, slides[..t], cells, rois), seriesOf'[..t])
    requires |outputs| == |Schedule(outputDir, slides[..t], cells, rois)|
    requires SavedPrefix(slideOutputs, FolderJobs(outputDir, slides[t], t, cells, rois), Uid(seriesOf'[t]))
    ensures RunPrefix(outputs + slideOutputs, Schedule(outputDir, slides[..t + 1], cells, rois), seriesOf')
    ensures |slideOutputs| == |FolderJobs(outputDir, slides[t], t, cells, rois)| ==>
      |outputs + slideOutputs| == |Schedule(outputDir, slides[..t + 1], cells, rois)|
  {
    ScheduleSnoc(outputDir, slides, t, cells, rois);
    FolderJobsSlide(outputDir, slides[t], t, cells, rois);
    RunPrefixAppend(outputs, Schedule(outputDir, slides[..t], cells, rois), slideOutputs,
                    FolderJobs(outputDir, slides[t], t, cells, rois), seriesOf');
  }

  /** A prefix of the first `t + 1` folders' files is a prefix of the whole run's files. */
  lemma StepStops(
    outputDir: string, slides: seq<SlideFolder>, t: nat, outputs: seq<Saved>, cells: seq<CellRow>,
    rois: seq<RoiRow>, seriesOf: seq<nat>)
    requires t < |slides|
    requires RunPrefix(outputs, Schedule(outputDir, slides[..t + 1], cells, rois), seriesOf)
    ensures RunPrefix(outputs, Schedule(outputDir, slides, cells, rois), seriesOf)
  {
    ScheduleExtends(outputDir, slides, t + 1, cells, rois);
    RunPrefixShorter(outputs, Schedule(outputDir, slides[..t + 1], cells, rois), Schedule(outputDir, slides, cells, rois),
                     seriesOf);
  }

  /** Giving the next slide series number `next` keeps the numbers increasing and below the new counter. */
  lemma SeriesSnoc(seriesOf: seq<nat>, next: nat, next': nat)
    requires forall a, b :: 0 <= a < b < |seriesOf| ==> seriesOf[a] < seriesOf[b]
    requires forall a :: 0 <= a < |seriesOf| ==> seriesOf[a] < next
    requires next < next'
    ensures (seriesOf + [next])[..|seriesOf|] == seriesOf
    ensures forall a, b :: 0 <= a < b < |seriesOf| + 1 ==> (seriesOf + [next])[a] < (seriesOf + [next])[b]
    ensures forall a :: 0 <= a < |seriesOf| + 1 ==> (seriesOf + [next])[a] < next'
  {
    assert (seriesOf + [next])[..|seriesOf|] == seriesOf;
  }

  /** The first `n` slide folders are convertible. */
  predicate SlidesOk(slides: seq<SlideFolder>, n: nat, cells: seq<CellRow>, rois: seq<RoiRow>, graphicTypeName: string,
                     coordinateTypeName: string, roiLabels: map<string, CodePair>)
    requires n <= |slides|
  {
    forall u :: 0 <= u < n ==> SlideOk(slides[u], cells, rois, graphicTypeName, coordinateTypeName, roiLabels)
  }

  lemma SlidesOkStep(slides: seq<SlideFolder>, t: nat, cells: seq<CellRow>, rois: seq<RoiRow>, graphicTypeName: string,
                     coordinateTypeName: string, roiLabels: map<string, CodePair>)
    requires t < |slides| && SlidesOk(slides, t, cells, rois, graphicTypeName, coordinateTypeName, roiLabels)
    ensures SlidesOk(slides, t + 1, cells, rois, graphicTypeName, coordinateTypeName, roiLabels)
       <==> SlideOk(slides[t], cells, rois, graphicTypeName, coordinateTypeName, roiLabels)
    ensures !SlideOk(slides[t], cells, rois, graphicTypeName, coordinateTypeName, roiLabels) ==>
      !SlidesOk(slides, |slides|, cells, rois, graphicTypeName, coordinateTypeName, roiLabels)
  {
  }

  /** The run has saved the first files of `jobs`, each in the series of its slide. */
  ghost predicate RunPrefix(outputs: seq<Saved>, jobs: seq<Job>, seriesOf: seq<nat>) {
    && |outputs| <= |jobs|
    && forall i :: 0 <= i < |outputs| ==>
         && jobs[i].slide < |seriesOf|
         && SavedAs(outputs[i], jobs[i].path, jobs[i].instance, Uid(seriesOf[jobs[i].slide]))
  }

  lemma RunPrefixAppend(a: seq<Saved>, ja: seq<Job>, b: seq<Saved>, jb: seq<Job>, seriesOf: seq<nat>)
    requires |seriesOf| > 0 && RunPrefix(a, ja, seriesOf[..|seriesOf| - 1]) && |a| == |ja|
    requires SavedPrefix(b, jb, Uid(seriesOf[|seriesOf| - 1]))
    requires forall i :: 0 <= i < |jb| ==> jb[i].slide == |seriesOf| - 1
    ensures RunPrefix(a + b, ja + jb, seriesOf)
  {
    forall i | 0 <= i < |a + b|
      ensures (ja + jb)[i].slide < |seriesOf|
      ensures SavedAs((a + b)[i], (ja + jb)[i].path, (ja + jb)[i].instance, Uid(seriesOf[(ja + jb)[i].slide]))
    {
      if i >= |a| {
        assert (a + b)[i] == b[i - |a|] && (ja + jb)[i] == jb[i - |a|];
      } else {
        assert (a + b)[i] == a[i] && (ja + jb)[i] == ja[i];
      }
    }
  }

  lemma RunPrefixShorter(outputs: seq<Saved>, jobs: seq<Job>, all: seq<Job>, seriesOf: seq<nat>)
    requires RunPrefix(outputs, jobs, seriesOf) && jobs <= all
    ensures RunPrefix(outputs, all, seriesOf)
  {
  }

  /** With distinct series numbers per slide, objects share a series UID exactly when they share a slide. */
  lemma SeriesUidsBySlide(outputs: seq<Saved>, jobs: seq<Job>, seriesOf: seq<nat>)
    requires RunPrefix(outputs, jobs, seriesOf)
    requires forall a, b :: 0 <= a < b < |seriesOf| ==> seriesOf[a] < seriesOf[b]
    ensures forall i, j :: 0 <= i < |outputs| && 0 <= j < |outputs| ==>
      (outputs[i].dcm.seriesUid == outputs[j].dcm.seriesUid <==> jobs[i].slide == jobs[j].slide)
  {
    forall i, j | 0 <= i < |outputs| && 0 <= j < |outputs|
      ensures outputs[i].dcm.seriesUid == outputs[j].dcm.seriesUid <==> jobs[i].slide == jobs[j].slide
    {
      var a, b := jobs[i].slide, jobs[j].slide;
      assert a < b ==> seriesOf[a] < seriesOf[b];
      assert b < a ==> seriesOf[b] < seriesOf[a];
    }
  }
}
