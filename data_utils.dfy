/**
 * Table preparation for the current pipeline: the defaulting of detection-only files,
 * the two table-driven label substitutions over comma-separated session lists, the
 * session count, selection of one slide's rows, and the data-dict parsers of this file.
 */
module DataUtils {
  import opened Wrappers
  import opened Strings
  import opened Indices
  import opened AnnotationTypes
  import opened DataDict

  /**
   * One row of the cell table, with every column a stage reads: `sessions` is
   * `all_original_annotations` (the comma-separated labels of the annotation sessions)
   * and `consensus` is `original_consensus_label`.
   */
  datatype CellRow = CellRow(
    slideId: string, cellId: int, roiId: int, rocellboxingId: int,
    x1: int, y1: int, x2: int, y2: int,
    xInSlide: int, yInSlide: int, cellWidth: int, cellHeight: int,
    sessions: string, consensus: string)

  /** One row of the ROI table. */
  datatype RoiRow = RoiRow(
    slideId: string, id: int, roiId: int,
    x1: int, y1: int, x2: int, y2: int,
    xInSlide: int, yInSlide: int, width: int, height: int)

  /** A cell CSV file: its rows, and whether it has the `original_consensus_label` column. */
  datatype CellCsv = CellCsv(hasConsensus: bool, rows: seq<CellRow>)

  /** The label every cell of the detection dataset gets. */
  const DetectionLabel := "haematological_structure"

  /** `ann_session` of the parsers: an integer step or a name such as 'consensus'. */
  datatype Session = Step(k: int) | Named(name: string)

  /** `str(ann_session)`. */
  function SessionText(s: Session): string {
    match s
    case Step(k) => IntToString(k)
    case Named(name) => name
  }

  // ---------------------------------------------------------------------------
  // Defaulting of detection-only files

  /** A file without the consensus column gets empty sessions and the detection label. */
  function DefaultRow(row: CellRow, hasConsensus: bool): CellRow {
    if hasConsensus then row else row.(sessions := "", consensus := DetectionLabel)
  }

  /** The cell rows of all files, concatenated in file order after defaulting. */
  function LoadedRows(files: seq<CellCsv>): (r: seq<CellRow>)
    decreases |files|
  {
    if files == [] then []
    else
      var f := files[|files| - 1];
      LoadedRows(files[..|files| - 1]) + seq(|f.rows|, j requires 0 <= j < |f.rows| => DefaultRow(f.rows[j], f.hasConsensus))
  }

  // ---------------------------------------------------------------------------
  // Label substitution

  /** `replacements.get(item, item)`. */
  function Get(replacements: map<string, string>, item: string): string {
    if item in replacements then replacements[item] else item
  }

  /** `','.join([replacements.get(item, item) for item in list_str.split(',')])`. */
  function ReplaceInList(listStr: string, replacements: map<string, string>): string {
    var items := Split(listStr, ',');
    Join(seq(|items|, i requires 0 <= i < |items| => Get(replacements, items[i])), ',')
  }

  predicate NoSeparatorIn(replacements: map<string, string>) {
    forall k :: k in replacements ==> ',' !in replacements[k]
  }

  /**
   * As long as no replacement contains a comma, the list keeps its number of items,
   * each item is its table value, and items without one are unchanged.
   */
  lemma ReplaceInListItems(listStr: string, replacements: map<string, string>)
    requires NoSeparatorIn(replacements)
    ensures var items := Split(listStr, ',');
      var out := Split(ReplaceInList(listStr, replacements), ',');
      && |out| == |items|
      && forall i :: 0 <= i < |out| ==> out[i] == Get(replacements, items[i])
  {
    var items := Split(listStr, ',');
    var out := seq(|items|, i requires 0 <= i < |items| => Get(replacements, items[i]));
    SplitJoin(out, ',');
  }

  /** A list none of whose items has a replacement is left as it is. */
  lemma ReplaceUnmapped(listStr: string, replacements: map<string, string>)
    requires forall i :: 0 <= i < |Split(listStr, ',')| ==> Split(listStr, ',')[i] !in replacements
    ensures ReplaceInList(listStr, replacements) == listStr
  {
    var items := Split(listStr, ',');
    assert seq(|items|, i requires 0 <= i < |items| => Get(replacements, items[i])) == items;
    JoinSplit(listStr, ',');
  }

  /** German free-text labels and the error label, mapped to ontology labels. */
  const GermanLabelReplacements: map<string, string> := map[
    "other:basophiler Erythroblast" := "basophilic_erythroblast",
    "other:Dichter Zellhaufen" := "technically_unfit",
    "other:Zellhaufen" := "technically_unfit",
    "other:degranulierter Promyelozyt" := "degranulated_neutrophilic_myelocyte",
    "other:Hämophagozytose" := "phagocytosis",
    "other:Riesenthrombozyt" := "giant_platelet",
    "other:Osteoblast" := "unknown_blast",
    "other:osteoblast" := "unknown_blast",
    "other:Mikrogerinsel" := "thrombocyte_aggregate",
    "other:Plasma eines Megakaryozyten" := "damaged_cell",
    "other:Makrothrombozyt" := "giant_platelet",
    "other:Kernreste" := "damaged_cell",
    "annotation_error" := "technically_unfit"]

  /** Blast labels renamed to the labels of the assigned codes. */
  const LabelReplacements: map<string, string> := map[
    "lymphoblast" := "lymphoid_precursor_cell",
    "monoblast" := "immature_monoblast",
    "myeloblast" := "myeloid_precursor_cell"]

  /** The values of the two tables. */
  const GermanValues: set<string> := {
    "basophilic_erythroblast", "technically_unfit", "degranulated_neutrophilic_myelocyte", "phagocytosis",
    "giant_platelet", "unknown_blast", "thrombocyte_aggregate", "damaged_cell"}
  const RenameValues: set<string> := {"lymphoid_precursor_cell", "immature_monoblast", "myeloid_precursor_cell"}

  lemma GermanValuesListed()
    ensures forall k :: k in GermanLabelReplacements ==> GermanLabelReplacements[k] in GermanValues
  {
  }

  lemma RenameValuesListed()
    ensures forall k :: k in LabelReplacements ==> LabelReplacements[k] in RenameValues
  {
  }

  predicate Unmapped(v: string) {
    v !in GermanLabelReplacements && v !in LabelReplacements && ',' !in v && v != ""
  }

  /** Every value of the German-synonym table is a key of neither table and holds no comma. */
  lemma GermanValuesUnmapped()
    ensures forall v :: v in GermanValues ==> Unmapped(v)
  {
    GermanValuesNotGermanKeys();
    GermanValuesNotRenameKeys();
    GermanValuesPlain();
  }

  lemma GermanValuesNotGermanKeys()
    ensures forall v :: v in GermanValues ==> v !in GermanLabelReplacements
  {
  }

  lemma GermanValuesNotRenameKeys()
    ensures forall v :: v in GermanValues ==> v !in LabelReplacements
  {
  }

  lemma GermanValuesPlain()
    ensures forall v :: v in GermanValues ==> ',' !in v && v != ""
  {
  }

  /** Every value of the rename table is a key of neither table and holds no comma. */
  lemma RenameValuesUnmapped()
    ensures forall v :: v in RenameValues ==> Unmapped(v)
  {
    RenameValuesNotGermanKeys();
    RenameValuesNotRenameKeys();
  }

  lemma RenameValuesNotGermanKeys()
    ensures forall v :: v in RenameValues ==> v !in GermanLabelReplacements
  {
  }

  lemma RenameValuesNotRenameKeys()
    ensures forall v :: v in RenameValues ==> v !in LabelReplacements && ',' !in v && v != ""
  {
  }

  /** No value of either table is a key of either, holds a comma, or is empty. */
  lemma TablesDisjoint()
    ensures forall k :: k in GermanLabelReplacements ==> Unmapped(GermanLabelReplacements[k])
    ensures forall k :: k in LabelReplacements ==> Unmapped(LabelReplacements[k])
  {
    GermanValuesListed();
    RenameValuesListed();
    GermanValuesUnmapped();
    RenameValuesUnmapped();
  }

  /** The session list after both substitutions, German first. */
  function RenameSessions(s: string): string {
    ReplaceInList(ReplaceInList(s, GermanLabelReplacements), LabelReplacements)
  }

  /** `Series.replace(replacements)` on the consensus label: only the rename table applies. */
  function RenameConsensus(name: string): string {
    Get(LabelReplacements, name)
  }

  function RenameRow(row: CellRow): CellRow {
    row.(sessions := RenameSessions(row.sessions), consensus := RenameConsensus(row.consensus))
  }

  /**
   * Renaming keeps the number of sessions, maps each item through the German table and
   * then the rename table, and leaves no item that either table would replace again.
   */
  lemma RenamedSessionItems(s: string)
    ensures var items := Split(s, ',');
      var out := Split(RenameSessions(s), ',');
      && |out| == |items|
      && forall i :: 0 <= i < |out| ==>
           && out[i] == Get(LabelReplacements, Get(GermanLabelReplacements, items[i]))
           && out[i] !in GermanLabelReplacements && out[i] !in LabelReplacements
  {
    TablesDisjoint();
    ReplaceInListItems(s, GermanLabelReplacements);
    ReplaceInListItems(ReplaceInList(s, GermanLabelReplacements), LabelReplacements);
  }

  /** A second rename changes nothing. */
  lemma RenameSessionsIdempotent(s: string)
    ensures RenameSessions(RenameSessions(s)) == RenameSessions(s)
  {
    var t := RenameSessions(s);
    RenamedSessionItems(s);
    ReplaceUnmapped(t, GermanLabelReplacements);
    ReplaceUnmapped(t, LabelReplacements);
  }

  lemma RenameConsensusIdempotent(name: string)
    ensures RenameConsensus(RenameConsensus(name)) == RenameConsensus(name)
  {
    TablesDisjoint();
  }

  // ---------------------------------------------------------------------------
  // Session count

  /** `0 if x == '' else len(x.split(','))`: the number of annotation sessions of a row. */
  function SessionCount(s: string): (n: nat)
    ensures n == 0 <==> s == ""
  {
    if s == "" then 0 else |Split(s, ',')|
  }

  /** Renaming never changes how many sessions a row has. */
  lemma SessionCountRenamed(s: string)
    ensures SessionCount(RenameSessions(s)) == SessionCount(s)
  {
    TablesDisjoint();
    RenamedSessionItems(s);
    var t := RenameSessions(s);
    if t == "" {
      var items := Split(s, ',');
      assert Split(t, ',') == [""];
      assert |items| == 1;
      assert items[0] == "";
      JoinSplit(s, ',');
      assert Join(items, ',') == items[0];
    }
  }

  /** A row of a file without the consensus column has no session after preprocessing. */
  lemma DetectionRowPreprocessed(row: CellRow)
    ensures var r := RenameRow(DefaultRow(row, false));
      r.sessions == "" && r.consensus == DetectionLabel && SessionCount(r.sessions) == 0
  {
    assert Split("", ',') == [""];
    var e := seq(1, i requires 0 <= i < 1 => Get(GermanLabelReplacements, [""][i]));
    assert e == [""];
    assert ReplaceInList("", GermanLabelReplacements) == Join([""], ',');
    assert ReplaceInList("", LabelReplacements) == Join([""], ',');
  }

  // ---------------------------------------------------------------------------
  // The cell table, whose columns the preprocessing overwrites in place

  class CellTable {
    var rows: seq<CellRow>
    /** The `ann_sessions` column, empty until it is added. */
    var sessionCounts: seq<nat>

    constructor (rows: seq<CellRow>)
      ensures this.rows == rows && sessionCounts == []
    {
      this.rows := rows;
      sessionCounts := [];
    }

    /** `_rename_cell_labels`: both substitutions on the sessions, the rename table on the consensus. */
    method RenameCellLabels()
      modifies this
      ensures |rows| == |old(rows)|
      ensures forall i :: 0 <= i < |rows| ==> rows[i] == RenameRow(old(rows)[i])
      ensures sessionCounts == old(sessionCounts)
    {
      ghost var original := rows;
      for i := 0 to |rows|
        invariant |rows| == |original|
        invariant forall j :: 0 <= j < i ==> rows[j] == RenameRow(original[j])
        invariant forall j :: i <= j < |rows| ==> rows[j] == original[j]
        invariant sessionCounts == old(sessionCounts)
      {
        rows := rows[i := RenameRow(rows[i])];
      }
    }

    /** `_add_number_of_annotation_steps`: the session count of every row. */
    method AddNumberOfAnnotationSteps()
      modifies this
      ensures rows == old(rows)
      ensures |sessionCounts| == |rows|
      ensures forall i :: 0 <= i < |rows| ==> sessionCounts[i] == SessionCount(rows[i].sessions)
    {
      var counts := [];
      for i := 0 to |rows|
        invariant |counts| == i
        invariant forall j :: 0 <= j < i ==> counts[j] == SessionCount(rows[j].sessions)
      {
        counts := counts + [SessionCount(rows[i].sessions)];
      }
      sessionCounts := counts;
    }
  }

  /** The cell half of `preprocess_annotation_csvs`: load with defaulting, rename, count. */
  method PreprocessCells(files: seq<CellCsv>) returns (table: CellTable)
    ensures fresh(table)
    ensures |table.rows| == |LoadedRows(files)|
    ensures forall i :: 0 <= i < |table.rows| ==> table.rows[i] == RenameRow(LoadedRows(files)[i])
    ensures |table.sessionCounts| == |table.rows|
    ensures forall i :: 0 <= i < |table.rows| ==> table.sessionCounts[i] == SessionCount(table.rows[i].sessions)
  {
    var cells := [];
    for c := 0 to |files|
      invariant cells == LoadedRows(files[..c])
    {
      var f := files[c];
      var df := seq(|f.rows|, j requires 0 <= j < |f.rows| => DefaultRow(f.rows[j], f.hasConsensus));
      assert files[..c + 1][..c] == files[..c];
      cells := cells + df;
    }
    assert files[..|files|] == files;
    table := new CellTable(cells);
    table.RenameCellLabels();
    table.AddNumberOfAnnotationSteps();
  }

  // ---------------------------------------------------------------------------
  // Selecting one slide's rows

  /** `df[mask]` for a row predicate: the rows that satisfy it, in table order. */
  function FilterRows<T>(rows: seq<T>, keep: T -> bool): (r: seq<T>)
    ensures |r| <= |rows|
    ensures forall k :: 0 <= k < |r| ==> keep(r[k])
    decreases |rows|
  {
    if rows == [] then []
    else FilterRows(rows[..|rows| - 1], keep) + (if keep(rows[|rows| - 1]) then [rows[|rows| - 1]] else [])
  }

  function RowMask<T>(rows: seq<T>, keep: T -> bool): nat -> bool {
    (i: nat) => i < |rows| && keep(rows[i])
  }

  /**
   * The selection is exactly the rows at the positions where the predicate holds, in
   * ascending position order.
   */
  lemma {:induction false} FilterIsSelection<T>(rows: seq<T>, keep: T -> bool)
    ensures FilterRows(rows, keep) == Pick(rows, Where(|rows|, RowMask(rows, keep)))
    decreases |rows|
  {
    if rows != [] {
      var n := |rows|;
      var prefix := rows[..n - 1];
      FilterIsSelection(prefix, keep);
      WhereSame(n - 1, RowMask(rows, keep), RowMask(prefix, keep));
      var w := Where(n - 1, RowMask(prefix, keep));
      assert Pick(rows, w) == Pick(prefix, w);
      if keep(rows[n - 1]) {
        assert Where(n, RowMask(rows, keep)) == w + [n - 1];
        assert Pick(rows, w + [n - 1]) == Pick(rows, w) + [rows[n - 1]];
      } else {
        assert Where(n, RowMask(rows, keep)) == w;
      }
    }
  }

  /** `annotations['slide_id'] == slide_id` for cell rows. */
  function CellOnSlide(slideId: string): CellRow -> bool {
    (r: CellRow) => r.slideId == slideId
  }

  /** `annotations['slide_id'] == slide_id` for ROI rows. */
  function RoiOnSlide(slideId: string): RoiRow -> bool {
    (r: RoiRow) => r.slideId == slideId
  }

  // ---------------------------------------------------------------------------
  // The parsers of this file (the entry point uses its own, below in RunConversion)

  /** ROI records from columns x1, x2, y1, y2 and roi_id, stored under 'ann'. */
  method ParseRoiAnnotations(data: Data, rows: seq<RoiRow>)
    modifies data
    ensures AnnKey in data.entries && data.entries[AnnKey].Anns?
    ensures data.entries == old(data.entries)[AnnTypeKey := Text("roi")][AnnKey := data.entries[AnnKey]]
    ensures var ann := data.entries[AnnKey].anns;
      && |ann| == |rows|
      && forall i :: 0 <= i < |ann| ==>
           ann[i] == RoiAnnotation(rows[i].roiId, Box(rows[i].x1, rows[i].y1, rows[i].x2, rows[i].y2))
  {
    var ann := [];
    for i := 0 to |rows|
      invariant |ann| == i
      invariant forall j :: 0 <= j < i ==>
        ann[j] == RoiAnnotation(rows[j].roiId, Box(rows[j].x1, rows[j].y1, rows[j].x2, rows[j].y2))
    {
      var row := rows[i];
      ann := ann + [RoiAnnotation(row.roiId, Box(row.x1, row.y1, row.x2, row.y2))];
    }
    data.Put(AnnTypeKey, Text("roi"));
    data.Put(AnnKey, Anns(ann));
  }

  /** `bool(s)` for a string. */
  predicate Truthy(s: string) {
    s != ""
  }

  /**
   * The k-th label of a session list; a name instead of a step raises TypeError, a
   * step out of range IndexError.
   */
  function SessionLabel(sessions: string, session: Session): (r: Result<string>)
    ensures session.Step? ==> r == PyIndex(Split(sessions, ','), session.k)
    ensures session.Named? ==> r == Err(TypeError("list indices must be integers or slices, not str"))
  {
    match session
    case Step(k) => PyIndex(Split(sessions, ','), k)
    case Named(_) => Err(TypeError("list indices must be integers or slices, not str"))
  }

  /**
   * The label `parse_cell_annotations` of this file picks: its test
   * `ann_session == 'consensus' or 'detection-only'` is always true, so this is the
   * consensus label whatever the session.
   */
  function CellLabel(row: CellRow, session: Session): (r: Result<string>)
    ensures r == Ok(row.consensus)
  {
    if session == Named("consensus") || Truthy("detection-only") then Ok(row.consensus)
    else SessionLabel(row.sessions, session)
  }

  /** Cell records from columns x1, x2, y1, y2, cell_id and roi_id, stored under 'ann'. */
  method ParseCellAnnotations(data: Data, rows: seq<CellRow>, session: Session)
    modifies data
    ensures AnnKey in data.entries && data.entries[AnnKey].Anns?
    ensures data.entries == old(data.entries)[AnnTypeKey := Text("cell")][AnnKey := data.entries[AnnKey]]
    ensures var ann := data.entries[AnnKey].anns;
      && |ann| == |rows|
      && forall i :: 0 <= i < |ann| ==>
           ann[i] == CellAnnotation(rows[i].cellId, rows[i].roiId,
                                    Box(rows[i].x1, rows[i].y1, rows[i].x2, rows[i].y2), rows[i].consensus)
  {
    var ann := [];
    for i := 0 to |rows|
      invariant |ann| == i
      invariant forall j :: 0 <= j < i ==>
        ann[j] == CellAnnotation(rows[j].cellId, rows[j].roiId,
                                 Box(rows[j].x1, rows[j].y1, rows[j].x2, rows[j].y2), rows[j].consensus)
    {
      var row := rows[i];
      var cellLabel := CellLabel(row, session);
      ann := ann + [CellAnnotation(row.cellId, row.roiId, Box(row.x1, row.y1, row.x2, row.y2), cellLabel.value)];
    }
    data.Put(AnnTypeKey, Text("cell"));
    data.Put(AnnKey, Anns(ann));
  }
}
