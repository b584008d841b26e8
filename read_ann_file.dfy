/**
 * The decoding script: the annotation groups of a bulk annotation object read
 * back into ROI rows and cell rows. A group is seen as the script sees it: its
 * label, its two-dimensional graphic data and its table of measurement values,
 * one row per annotation; the two are zipped, so the shorter one decides the
 * number of rows.
 */
module ReadAnnFile {
  import opened Wrappers
  import opened AnnotationTypes
  import opened Convert

  /** `(ann_group.label, ann_group.get_graphic_data('2D'), ann_group.get_measurements()[1])`. */
  datatype GroupView = GroupView(groupLabel: string, coords: seq<seq<Coordinate>>, values: seq<seq<int>>)

  /** A group as the annotation object stores it, seen through those accessors. */
  function View(g: AnnotationGroup<Coordinate>): GroupView
    requires Aligned(g)
  {
    GroupView(g.groupLabel, g.graphicData, MeasurementRows(g))
  }

  /** The number of pairs `zip(coords, m_values)` yields. */
  function ZipLength(v: GroupView): nat {
    if |v.coords| <= |v.values| then |v.coords| else |v.values|
  }

  /** numpy's error for `m[0]` on a row without values. */
  const EmptyRow := IndexError("index 0 is out of bounds for axis 0 with size 0")

  datatype RoiRow = RoiRow(roiId: int, roiLabel: string, coordinates: seq<Coordinate>)
  datatype CellRow = CellRow(cellId: int, roiId: int, cellLabel: string, coordinates: seq<Coordinate>)

  /** Some zipped row among the first `n` measures nothing. */
  predicate HasEmptyRow(v: GroupView, n: nat)
    requires n <= ZipLength(v)
  {
    exists k :: 0 <= k < n && v.values[k] == []
  }

  /** Every measurement row has the same number of values, as in a two-dimensional array. */
  predicate Rectangular(v: GroupView) {
    forall j, k :: 0 <= j < |v.values| && 0 <= k < |v.values| ==> |v.values[j]| == |v.values[k]|
  }

  // ---------------------------------------------------------------------------
  // get_rois

  /** The ROI rows of the first `j` zipped pairs of a group. */
  function RoiRowsUpTo(v: GroupView, j: nat): (r: seq<RoiRow>)
    requires j <= ZipLength(v) && forall k :: 0 <= k < j ==> v.values[k] != []
    ensures |r| == j
    ensures forall k :: 0 <= k < j ==> r[k] == RoiRow(v.values[k][0], v.groupLabel, v.coords[k])
  {
    if j == 0 then [] else RoiRowsUpTo(v, j - 1) + [RoiRow(v.values[j - 1][0], v.groupLabel, v.coords[j - 1])]
  }

  /** The rows of one group, or the IndexError of a row that measures nothing. */
  function GroupRoiRows(v: GroupView): Result<seq<RoiRow>> {
    if HasEmptyRow(v, ZipLength(v)) then Err(EmptyRow) else Ok(RoiRowsUpTo(v, ZipLength(v)))
  }

  /** The rows of all groups, appended group by group; the first error aborts. */
  function RoiRows(groups: seq<GroupView>): Result<seq<RoiRow>>
    decreases |groups|
  {
    if groups == [] then Ok([])
    else
      match RoiRows(groups[..|groups| - 1])
      case Err(e) => Err(e)
      case Ok(before) =>
        match GroupRoiRows(groups[|groups| - 1])
        case Err(e) => Err(e)
        case Ok(mine) => Ok(before + mine)
  }

  /** The inner loop of `get_rois` for one group, appending to `rows`. */
  method AppendGroupRois(rows: seq<RoiRow>, v: GroupView) returns (r: Result<seq<RoiRow>>)
    ensures GroupRoiRows(v).Err? ==> r == Err(EmptyRow)
    ensures GroupRoiRows(v).Ok? ==> r == Ok(rows + GroupRoiRows(v).value)
  {
    var n := ZipLength(v);
    var acc := rows;
    var j := 0;
    while j < n
      invariant 0 <= j <= n
      invariant forall k :: 0 <= k < j ==> v.values[k] != []
      invariant acc == rows + RoiRowsUpTo(v, j)
    {
      var m := v.values[j];
      if |m| == 0 {
        return Err(EmptyRow);
      }
      acc := acc + [RoiRow(m[0], v.groupLabel, v.coords[j])];
      j := j + 1;
    }
    return Ok(acc);
  }

  /** `get_rois`: one row `[m[0], label, coordinates]` per zipped pair, group after group. */
  method GetRois(groups: seq<GroupView>) returns (r: Result<seq<RoiRow>>)
    ensures r == RoiRows(groups)
  {
    var rows := [];
    for i := 0 to |groups|
      invariant RoiRows(groups[..i]) == Ok(rows)
    {
      assert groups[..i + 1][..i] == groups[..i];
      var next := AppendGroupRois(rows, groups[i]);
      if next.Err? {
        RoiRowsAbort(groups, i + 1);
        return next;
      }
      rows := next.value;
    }
    assert groups[..|groups|] == groups;
    return Ok(rows);
  }

  /** Once a group fails, `get_rois` raises that group's error whatever follows. */
  lemma {:induction false} RoiRowsAbort(groups: seq<GroupView>, i: nat)
    requires i <= |groups| && RoiRows(groups[..i]).Err?
    ensures RoiRows(groups) == RoiRows(groups[..i])
    decreases |groups| - i
  {
    if i < |groups| {
      assert groups[..i + 1][..i] == groups[..i];
      RoiRowsAbort(groups, i + 1);
    } else {
      assert groups[..i] == groups;
    }
  }

  /** The number of pairs over all groups. */
  function ZipTotal(groups: seq<GroupView>): nat
    decreases |groups|
  {
    if groups == [] then 0 else ZipTotal(groups[..|groups| - 1]) + ZipLength(groups[|groups| - 1])
  }

  /**
   * The ROI table has one row per zipped pair of every group, and it fails exactly
   * when some zipped row measures nothing.
   */
  lemma {:induction false} RoiRowCount(groups: seq<GroupView>)
    ensures RoiRows(groups).Ok? <==> forall j :: 0 <= j < |groups| ==> !HasEmptyRow(groups[j], ZipLength(groups[j]))
    ensures RoiRows(groups).Err? ==> RoiRows(groups).error == EmptyRow
    ensures RoiRows(groups).Ok? ==> |RoiRows(groups).value| == ZipTotal(groups)
    decreases |groups|
  {
    if groups != [] {
      var prefix := groups[..|groups| - 1];
      RoiRowCount(prefix);
      assert forall j :: 0 <= j < |prefix| ==> prefix[j] == groups[j];
    }
  }

  /** Decoding the ROI object gives back each ROI's identifier and graphic data, in order. */
  lemma RoiRoundTrip(
    graphicData: seq<seq<Coordinate>>, identifiers: seq<int>, seriesUid: Uid, instanceNumber: int,
    graphicTypeName: string, coordinateTypeName: string, roiLabels: map<string, CodePair>, uidBase: nat)
    requires |identifiers| == |graphicData|
    requires CreateBulkAnnotationsForRois(graphicData, identifiers, seriesUid, instanceNumber, graphicTypeName,
                                          coordinateTypeName, roiLabels, uidBase).Ok?
    ensures var obj := CreateBulkAnnotationsForRois(graphicData, identifiers, seriesUid, instanceNumber,
                                                    graphicTypeName, coordinateTypeName, roiLabels, uidBase).value;
      && RoiRows([View(obj.groups[0])]).Ok?
      && var rows := RoiRows([View(obj.groups[0])]).value;
      && |rows| == |identifiers|
      && forall k :: 0 <= k < |rows| ==> rows[k] == RoiRow(identifiers[k], RoiLabel, graphicData[k])
  {
    var obj := CreateBulkAnnotationsForRois(graphicData, identifiers, seriesUid, instanceNumber,
                                            graphicTypeName, coordinateTypeName, roiLabels, uidBase).value;
    var v := View(obj.groups[0]);
    assert forall k :: 0 <= k < ZipLength(v) ==> v.values[k] == [identifiers[k]];
    assert [v][..0] == [];
  }

  // ---------------------------------------------------------------------------
  // get_cells

  /** The first of the first `n` rows with fewer than two values, or `n`. */
  function FirstShort(values: seq<seq<int>>, n: nat, k: nat): (t: nat)
    requires k <= n <= |values|
    ensures k <= t <= n
    ensures forall j :: k <= j < t ==> |values[j]| >= 2
    ensures t < n ==> |values[t]| < 2
    decreases n - k
  {
    if k == n then n else if |values[k]| < 2 then k else FirstShort(values, n, k + 1)
  }

  /** The rows `[m[0], m[1], label, c]` of the first `j` zipped pairs. */
  function PairedUpTo(v: GroupView, j: nat): (r: seq<CellRow>)
    requires j <= ZipLength(v) && forall k :: 0 <= k < j ==> |v.values[k]| >= 2
    ensures |r| == j
    ensures forall k :: 0 <= k < j ==> r[k] == CellRow(v.values[k][0], v.values[k][1], v.groupLabel, v.coords[k])
  {
    if j == 0 then [] else PairedUpTo(v, j - 1) + [CellRow(v.values[j - 1][0], v.values[j - 1][1], v.groupLabel, v.coords[j - 1])]
  }

  /** The fallback rows `[m[0], -1, label, c]` of the first `j` zipped pairs. */
  function FallbackUpTo(v: GroupView, j: nat): (r: seq<CellRow>)
    requires j <= ZipLength(v) && forall k :: 0 <= k < j ==> v.values[k] != []
    ensures |r| == j
    ensures forall k :: 0 <= k < j ==> r[k] == CellRow(v.values[k][0], -1, v.groupLabel, v.coords[k])
  {
    if j == 0 then [] else FallbackUpTo(v, j - 1) + [CellRow(v.values[j - 1][0], -1, v.groupLabel, v.coords[j - 1])]
  }

  /**
   * The rows of one group: the paired rows appended before the first row lacking a
   * second value stay in the table, and then every pair is appended again with ROI
   * id -1; a row without any value raises IndexError from the fallback loop.
   */
  function GroupCellRows(v: GroupView): Result<seq<CellRow>> {
    var n := ZipLength(v);
    var t := FirstShort(v.values, n, 0);
    if t == n then Ok(PairedUpTo(v, n))
    else if HasEmptyRow(v, n) then Err(EmptyRow)
    else Ok(PairedUpTo(v, t) + FallbackUpTo(v, n))
  }

  function CellRows(groups: seq<GroupView>): Result<seq<CellRow>>
    decreases |groups|
  {
    if groups == [] then Ok([])
    else
      match CellRows(groups[..|groups| - 1])
      case Err(e) => Err(e)
      case Ok(before) =>
        match GroupCellRows(groups[|groups| - 1])
        case Err(e) => Err(e)
        case Ok(mine) => Ok(before + mine)
  }

  /** The try loop and, when it fails, the fallback loop of `get_cells` for one group. */
  method AppendGroupCells(rows: seq<CellRow>, v: GroupView) returns (r: Result<seq<CellRow>>)
    ensures GroupCellRows(v).Err? ==> r == Err(EmptyRow)
    ensures GroupCellRows(v).Ok? ==> r == Ok(rows + GroupCellRows(v).value)
  {
    var n := ZipLength(v);
    var acc := rows;
    var j := 0;
    while j < n
      invariant 0 <= j <= n
      invariant forall k :: 0 <= k < j ==> |v.values[k]| >= 2
      invariant acc == rows + PairedUpTo(v, j)
    {
      var m := v.values[j];
      if |m| < 2 {
        break;
      }
      acc := acc + [CellRow(m[0], m[1], v.groupLabel, v.coords[j])];
      j := j + 1;
    }
    if j == n {
      assert FirstShort(v.values, n, 0) == n by { FirstShortIsFirst(v.values, n, 0, n); }
      return Ok(acc);
    }
    assert FirstShort(v.values, n, 0) == j by { FirstShortIsFirst(v.values, n, 0, j); }
    r := AppendFallback(acc, v);
    if r.Ok? {
      assert r.value == rows + (PairedUpTo(v, j) + FallbackUpTo(v, n));
    }
  }

  /** The fallback loop of `get_cells`: every pair appended again with ROI id -1. */
  method AppendFallback(rows: seq<CellRow>, v: GroupView) returns (r: Result<seq<CellRow>>)
    ensures HasEmptyRow(v, ZipLength(v)) ==> r == Err(EmptyRow)
    ensures !HasEmptyRow(v, ZipLength(v)) ==> r == Ok(rows + FallbackUpTo(v, ZipLength(v)))
  {
    var n := ZipLength(v);
    var acc := rows;
    var i := 0;
    while i < n
      invariant 0 <= i <= n
      invariant forall k :: 0 <= k < i ==> v.values[k] != []
      invariant acc == rows + FallbackUpTo(v, i)
    {
      var m := v.values[i];
      if |m| == 0 {
        return Err(EmptyRow);
      }
      acc := acc + [CellRow(m[0], -1, v.groupLabel, v.coords[i])];
      i := i + 1;
    }
    return Ok(acc);
  }

  /** `FirstShort` finds the row before which every row has two values and which itself lacks one. */
  lemma {:induction false} FirstShortIsFirst(values: seq<seq<int>>, n: nat, k: nat, t: nat)
    requires k <= t <= n <= |values|
    requires forall j :: k <= j < t ==> |values[j]| >= 2
    requires t < n ==> |values[t]| < 2
    ensures FirstShort(values, n, k) == t
    decreases n - k
  {
    if k < t {
      FirstShortIsFirst(values, n, k + 1, t);
    }
  }

  /** Once a group fails, `get_cells` raises that group's error whatever follows. */
  lemma {:induction false} CellRowsAbort(groups: seq<GroupView>, i: nat)
    requires i <= |groups| && CellRows(groups[..i]).Err?
    ensures CellRows(groups) == CellRows(groups[..i])
    decreases |groups| - i
  {
    if i < |groups| {
      assert groups[..i + 1][..i] == groups[..i];
      CellRowsAbort(groups, i + 1);
    } else {
      assert groups[..i] == groups;
    }
  }

  /** `get_cells`: the rows of every group, group after group. */
  method GetCells(groups: seq<GroupView>) returns (r: Result<seq<CellRow>>)
    ensures r == CellRows(groups)
  {
    var rows := [];
    for i := 0 to |groups|
      invariant CellRows(groups[..i]) == Ok(rows)
    {
      assert groups[..i + 1][..i] == groups[..i];
      var next := AppendGroupCells(rows, groups[i]);
      if next.Err? {
        CellRowsAbort(groups, i + 1);
        return next;
      }
      rows := next.value;
    }
    assert groups[..|groups|] == groups;
    return Ok(rows);
  }

  /**
   * A group of a two-dimensional measurement table gives one row per zipped pair:
   * with the second value as ROI id when rows hold at least two values, and -1 when
   * they hold exactly one; rows without values raise IndexError.
   */
  lemma GroupCellRowsRectangular(v: GroupView)
    requires Rectangular(v) && ZipLength(v) > 0
    ensures |v.values[0]| >= 2 ==> GroupCellRows(v) == Ok(PairedUpTo(v, ZipLength(v)))
    ensures |v.values[0]| == 1 ==> GroupCellRows(v) == Ok(FallbackUpTo(v, ZipLength(v)))
    ensures |v.values[0]| == 0 <==> GroupCellRows(v) == Err(EmptyRow)
  {
    var n := ZipLength(v);
    if |v.values[0]| >= 2 {
      FirstShortIsFirst(v.values, n, 0, n);
    } else {
      FirstShortIsFirst(v.values, n, 0, 0);
      assert PairedUpTo(v, 0) == [];
      if |v.values[0]| == 1 {
        assert forall k :: 0 <= k < n ==> |v.values[k]| == |v.values[0]|;
        assert !HasEmptyRow(v, n);
        assert [] + FallbackUpTo(v, n) == FallbackUpTo(v, n);
      }
    }
  }

  /** The number of cell rows of tables of two-dimensional measurements is the number of pairs. */
  lemma {:induction false} CellRowCount(groups: seq<GroupView>)
    requires forall j :: 0 <= j < |groups| ==> Rectangular(groups[j])
    requires CellRows(groups).Ok?
    ensures |CellRows(groups).value| == ZipTotal(groups)
    decreases |groups|
  {
    if groups != [] {
      var prefix := groups[..|groups| - 1];
      var v := groups[|groups| - 1];
      assert forall j :: 0 <= j < |prefix| ==> prefix[j] == groups[j];
      CellRowCount(prefix);
      if ZipLength(v) > 0 {
        GroupCellRowsRectangular(v);
      }
    }
  }

  // ---------------------------------------------------------------------------
  // Round trip with the cell object

  /** The original record of annotation `i`: its ids, its label and its graphic data. */
  function OriginalRows(p: GroupPlan, graphicData: seq<seq<Coordinate>>, cellIdentifiers: seq<int>, roiIdentifiers: seq<int>)
    : (r: seq<CellRow>)
    requires IndicesBelow(p, |graphicData|) && |graphicData| == |cellIdentifiers| == |roiIdentifiers|
    ensures |r| == |p.indices|
    ensures forall k :: 0 <= k < |r| ==>
      r[k] == CellRow(cellIdentifiers[p.indices[k]], roiIdentifiers[p.indices[k]], p.cellLabel, graphicData[p.indices[k]])
  {
    seq(|p.indices|, k requires 0 <= k < |p.indices| =>
      CellRow(cellIdentifiers[p.indices[k]], roiIdentifiers[p.indices[k]], p.cellLabel, graphicData[p.indices[k]]))
  }

  /** A plan entry groups in-ROI cells, or cells with ROI id -1, as the planned groups do. */
  predicate RoiSplit(p: GroupPlan, roiIdentifiers: seq<int>) {
    forall k :: 0 <= k < |p.indices| && p.indices[k] < |roiIdentifiers| ==>
      (roiIdentifiers[p.indices[k]] != -1) == p.inRoi
  }

  /** The view of a cell group: its cells' graphic data and, per cell, the cell id and, in-ROI, the ROI id. */
  lemma CellGroupView(
    number: nat, uid: Uid, p: GroupPlan, codes: CodePair, graphicType: GraphicType,
    graphicData: seq<seq<Coordinate>>, cellIdentifiers: seq<int>, roiIdentifiers: seq<int>)
    requires |graphicData| == |cellIdentifiers| == |roiIdentifiers| && IndicesBelow(p, |graphicData|)
    ensures var g := CellGroup(number, uid, p, codes, graphicType, graphicData, cellIdentifiers, roiIdentifiers);
      && Aligned(g)
      && var v := View(g);
      && v.groupLabel == p.cellLabel
      && |v.coords| == |v.values| == |p.indices|
      && forall k :: 0 <= k < |p.indices| ==>
           && v.coords[k] == graphicData[p.indices[k]]
           && v.values[k] == if p.inRoi then [cellIdentifiers[p.indices[k]], roiIdentifiers[p.indices[k]]]
                             else [cellIdentifiers[p.indices[k]]]
  {
    CellGroupAligned(number, uid, p, codes, graphicType, graphicData, cellIdentifiers, roiIdentifiers);
  }

  /** A group whose rows all hold two values decodes pair by pair. */
  lemma PairedRows(v: GroupView, want: seq<CellRow>)
    requires |v.coords| == |v.values| == |want|
    requires forall k :: 0 <= k < |want| ==>
      |v.values[k]| >= 2 && want[k] == CellRow(v.values[k][0], v.values[k][1], v.groupLabel, v.coords[k])
    ensures GroupCellRows(v) == Ok(want)
  {
    FirstShortIsFirst(v.values, |want|, 0, |want|);
    assert PairedUpTo(v, |want|) == want;
  }

  /** A non-empty group whose rows all hold one value decodes through the fallback. */
  lemma FallbackRows(v: GroupView, want: seq<CellRow>)
    requires |v.coords| == |v.values| == |want| > 0
    requires forall k :: 0 <= k < |want| ==>
      |v.values[k]| == 1 && want[k] == CellRow(v.values[k][0], -1, v.groupLabel, v.coords[k])
    ensures GroupCellRows(v) == Ok(want)
  {
    var n := |want|;
    FirstShortIsFirst(v.values, n, 0, 0);
    assert !HasEmptyRow(v, n);
    assert PairedUpTo(v, 0) + FallbackUpTo(v, n) == FallbackUpTo(v, n);
    assert FallbackUpTo(v, n) == want;
  }

  /**
   * Decoding a cell group gives back the records of its cells: the ROI reference
   * of an in-ROI group, and the -1 of the fallback for an out-of-ROI group.
   */
  lemma CellGroupRoundTrip(
    number: nat, uid: Uid, p: GroupPlan, codes: CodePair, graphicType: GraphicType,
    graphicData: seq<seq<Coordinate>>, cellIdentifiers: seq<int>, roiIdentifiers: seq<int>)
    requires |graphicData| == |cellIdentifiers| == |roiIdentifiers| && IndicesBelow(p, |graphicData|)
    requires RoiSplit(p, roiIdentifiers)
    ensures var g := CellGroup(number, uid, p, codes, graphicType, graphicData, cellIdentifiers, roiIdentifiers);
      && Aligned(g)
      && GroupCellRows(View(g)) == Ok(OriginalRows(p, graphicData, cellIdentifiers, roiIdentifiers))
  {
    CellGroupView(number, uid, p, codes, graphicType, graphicData, cellIdentifiers, roiIdentifiers);
    var v := View(CellGroup(number, uid, p, codes, graphicType, graphicData, cellIdentifiers, roiIdentifiers));
    var want := OriginalRows(p, graphicData, cellIdentifiers, roiIdentifiers);
    if p.inRoi {
      PairedRows(v, want);
    } else if |want| > 0 {
      FallbackRows(v, want);
    } else {
      PairedRows(v, want);
    }
  }

  /** The records of the cells of every plan entry, entry after entry. */
  function PlannedRows(plan: seq<GroupPlan>, graphicData: seq<seq<Coordinate>>, cellIdentifiers: seq<int>, roiIdentifiers: seq<int>)
    : seq<CellRow>
    requires |graphicData| == |cellIdentifiers| == |roiIdentifiers|
    requires forall j :: 0 <= j < |plan| ==> IndicesBelow(plan[j], |graphicData|)
    decreases |plan|
  {
    if plan == [] then []
    else
      var m := |plan| - 1;
      PlannedRows(plan[..m], graphicData, cellIdentifiers, roiIdentifiers)
        + OriginalRows(plan[m], graphicData, cellIdentifiers, roiIdentifiers)
  }

  /**
   * Decoding the groups of the cell object gives back, group by group, the id,
   * ROI id, label and graphic data of every cell the groups were built from.
   */
  lemma {:induction false} CellObjectRoundTrip(
    groups: seq<AnnotationGroup<Coordinate>>, views: seq<GroupView>, plan: seq<GroupPlan>, uidBase: nat,
    cellLabels: map<string, CodePair>, graphicType: GraphicType, graphicData: seq<seq<Coordinate>>,
    cellIdentifiers: seq<int>, roiIdentifiers: seq<int>)
    requires |graphicData| == |cellIdentifiers| == |roiIdentifiers|
    requires GroupsFollowPlan(groups, plan, uidBase, cellLabels, graphicType, graphicData, cellIdentifiers, roiIdentifiers)
    requires forall j :: 0 <= j < |plan| ==> RoiSplit(plan[j], roiIdentifiers)
    requires |views| == |groups| && forall j :: 0 <= j < |groups| ==> Aligned(groups[j]) && views[j] == View(groups[j])
    ensures CellRows(views) == Ok(PlannedRows(plan, graphicData, cellIdentifiers, roiIdentifiers))
    decreases |plan|
  {
    if plan != [] {
      var m := |plan| - 1;
      var p := plan[m];
      assert GroupsFollowPlan(groups[..m], plan[..m], uidBase, cellLabels, graphicType, graphicData,
                              cellIdentifiers, roiIdentifiers);
      CellObjectRoundTrip(groups[..m], views[..m], plan[..m], uidBase, cellLabels, graphicType, graphicData,
                          cellIdentifiers, roiIdentifiers);
      CellGroupRoundTrip(m + 1, Uid(uidBase + m), p, cellLabels[p.cellLabel], graphicType, graphicData,
                         cellIdentifiers, roiIdentifiers);
    }
  }

  /** `Plan` splits every label by ROI membership, so the round trip applies to the groups it plans. */
  lemma PlanSplitsByRoi(order: seq<string>, labels: seq<string>, roiIdentifiers: seq<int>)
    requires |labels| == |roiIdentifiers|
    ensures forall j :: 0 <= j < |Plan(order, labels, roiIdentifiers)| ==> RoiSplit(Plan(order, labels, roiIdentifiers)[j], roiIdentifiers)
  {
  }
}
