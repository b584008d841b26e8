# Annotation pipeline of the MIRAX-to-DICOM conversion, in Dafny

This project models the annotation pipeline of the bone-marrow slide conversion (MIRAX whole-slide
images and their CSV annotations to DICOM). It also proves properties of that model. The pipeline has
these parts:

- **Graphic data.** A bounding box is shifted by the OpenSlide crop offset. It then becomes a
  RECTANGLE (four corners) or a POINT (floor-division centre). Any other graphic type is rejected
  with a ValueError.
- **Bulk annotation objects.** These are DICOM Microscopy Bulk Simple Annotations.
  - The ROI object has one group, `region_of_interest`, whose measurement is the ROI identifier.
  - The cell object has up to two groups per label of the cell-label table, in sorted label order:
    cells inside some ROI (`roi != -1`) and cells outside any ROI. Empty groups are skipped and
    group numbers run 1, 2, 3 ….
- **Orchestration of a run.** The run parses the ROI and cell rows. It keeps the `data` dictionary
  that the stages extend and prune. It runs one cell pass per annotation session and a consensus
  pass, assigns instance numbers and builds output file names. It gives all objects of a slide one
  series UID.
- **Label normalisation of the CSV rows.** Two substitution tables are applied over comma lists. The
  sessions of each row are counted. Rows of the detection dataset are given defaults.
- **The older single-object variant.** It uses POLYGON or an exact-centroid POINT. It groups by
  label only.
- **The decoding scripts.** They read groups back into ROI and cell rows and export GeoJSON.
- **Small utilities.**
  - The git remote simplification and the commit hash.
  - The scanner-property lookup, the NCI Thesaurus table and the extra DICOM attributes.
  - File counting by UID prefix.
  - The summary of validator errors.
  - The ImageType patch.

One module models each source file. Shared modules:

- `Wrappers`: Option, Result and the Python exception kinds.
- `Strings`: `str.split`, `join`, `replace`, `startswith`/`endswith`, ASCII lower-casing, code-point
  ordering and `sorted`, and integer formatting.
- `Indices`: `np.where` as an ascending index list, Python list indexing, and flattening.
- `AnnotationTypes`: the highdicom enumerations and the group and object records.
- `DataDict`: the mutable `data` dictionary as a class with a `map` field.
- `SourceImage`: `find_base_level`, identical in both entry points.

Some source functions appear twice in identical form. Each is modelled once and cited at one copy:

- `find_property_by_suffix` in both `add_metadata.py` files;
- `find_base_level` in both entry points;
- both copies of `count_files_by_prefix.py`.

What the model takes as parameters instead of I/O:

- The OpenSlide crop bounds are a pair of integers.
- Directory listings and walks are sequences: file names with sizes, and folders with their entries.
- CSV files are sequences of typed rows. The label and code tables of `metadata_config.py` are
  injected maps and records.
- A git repository is a record: head commit, dirty flag and remote URLs.
- Files read line by line are sequences of lines.
- DICOM datasets are maps from tag to element.
- UIDs are numbers drawn from a counter that the callers thread through (`uidBase`). "Fresh" means
  "distinct from every UID drawn before".
- A stage that logs an exception and returns `None` is an `Outcome` (`Returned`, `ReturnedNone` with
  the logged error, or `Raised`).
- A slide folder's CSV rows are selected by the folder's full name. The `slide_id` stored in
  `data`, and used in the output file names, is the folder's `Path.stem`. So two folders that differ
  only after a last dot write the same files (LegacyMain.LegacyStemsCollide).
- The next stage subscripts that `None`. That TypeError ends the run, so the run loops stop at the
  first failing slide and report an `Abort`.

## Model

| member | source | states |
|---|---|---|
| AnnotationTypes.ParseGraphicType | src/annotation_conversion/convert.py:115 | The name lookup `GraphicTypeValues[name]` succeeds exactly for the five enumeration names and returns the value so named; any other name raises KeyError(name) |
| AnnotationTypes.ParseGraphicTypeName | src/annotation_conversion/convert.py:115 | Looking up the name of a graphic type gives that type back (name and lookup are inverse) |
| AnnotationTypes.ParseCoordinateType | src/annotation_conversion/convert.py:116-118 | `AnnotationCoordinateTypeValues[name]` succeeds exactly for SCOORD and SCOORD3D, else KeyError(name) |
| AnnotationTypes.MeasurementRows | src/misc/read_ann_file.py:11 | The measurement table a group yields has one row per annotation, row j holding the j-th value of every measurement, in measurement order |
| Indices.Where | src/annotation_conversion/convert.py:286 | `np.where(mask)[0]`: strictly ascending indices below n, each satisfying the mask |
| Indices.WhereComplete | src/annotation_conversion/convert.py:286 | Every index below n satisfying the mask is in the result |
| Indices.WhereOnce | src/annotation_conversion/convert.py:286 | Each index occurs in the result once if it satisfies the mask and not at all otherwise |
| Indices.PyIndexWraps | src/annotation_conversion/data_utils.py:153 | Whenever Python list indexing succeeds, the list is non-empty and the element is the one at k modulo the length |
| Indices.PyIndexLast | src/annotation_conversion/run_conversion.py:484 | Index -1 of a non-empty list is its last element; on an empty list it raises IndexError('list index out of range') |
| Strings.Split | src/annotation_conversion/data_utils.py:44 | `str.split(sep)`: at least one part and no part contains the separator |
| Strings.JoinSplit | src/annotation_conversion/data_utils.py:44-45 | Joining the parts of a split with the same separator gives the string back |
| Strings.SplitJoin | src/annotation_conversion/data_utils.py:44-45 | Splitting a join of separator-free parts gives the parts back |
| Strings.SortStringsCorrect | annotation_conversion/convert.py:185 | `sorted(list)` yields a sorted permutation of its input |
| Strings.SortedUnique | annotation_conversion/convert.py:185 | Two sorted permutations of the same list are equal, so `sorted` has one answer |
| Strings.SortedKeys | src/annotation_conversion/convert.py:284 | `sorted(dict)`: the keys strictly ascending in code-point order, each exactly once |
| Strings.NatToString | src/count_files_by_prefix.py:31 | The decimal text of a count is non-empty and made of digits |
| Strings.ParseNatToString | src/count_files_by_prefix.py:31 | Reading the decimal text of a count back gives the count (the CSV field determines the number) |
| Strings.Stem | src/annotation_conversion/run_conversion.py:50 | `Path.stem`: a prefix of the name; the name itself when it has no dot; otherwise, when shorter, the non-empty part before a last dot that is neither first nor last |
| Strings.StemDropsSuffix | src/annotation_conversion/run_conversion.py:50 | The stem of `base.ext`, with a non-empty base and a non-empty dot-free extension, is the base |
| Strings.IntToStringInjective | src/annotation_conversion/run_conversion.py:397-399 | Distinct integers have distinct decimal texts, so distinct steps name distinct files |
| SourceImage.FindBaseLevel | src/annotation_conversion/run_conversion.py:35-44 | Running maximum over the level files: None iff every size is 0; otherwise a file of strictly largest size, the first such on ties |
| SourceImage.BaseLevelUnique | src/annotation_conversion/run_conversion.py:39-43 | At most one file meets the base-level condition, so the result is determined |
| DataDict.Data.constructor | src/annotation_conversion/run_conversion.py:446 | The dictionary a slide starts from (the source-image metadata) holds exactly the entries it is given |
| DataDict.Data.Put | src/annotation_conversion/run_conversion.py:226 | `data[key] = v` replaces or adds exactly that key and leaves every other key as it was |
| DataDict.Data.Delete | src/annotation_conversion/run_conversion.py:233 | `del data[key]` removes exactly that key; it requires the key, as Python raises KeyError otherwise |
| Convert.ProcessAnnotation | src/annotation_conversion/convert.py:46-68 | Ok exactly for RECTANGLE and POINT, else the ValueError naming the type. RECTANGLE: 4 points which, with the offset added back, are (xmin,ymin),(xmax,ymin),(xmax,ymax),(xmin,ymax). POINT: one point that is the floor of the midpoint of the shifted box on each axis |
| Convert.ProcessAnnotationTranslation | src/annotation_conversion/convert.py:47 | Moving a box and the crop offset by the same amount leaves the graphic data unchanged: only the difference box-minus-offset matters |
| Convert.PointInsideBox | src/annotation_conversion/convert.py:59-64 | For a box with min ≤ max, the POINT lies inside the shifted box |
| Convert.GetGraphicData | src/annotation_conversion/convert.py:115-141 | The two enumeration lookups raise KeyError first, in order; the unsupported-type ValueError is raised only when there is an annotation; otherwise one item per annotation, in input order, each the item `process_annotation` yields for it with the same offset |
| Convert.CreateBulkAnnotationsForRois | src/annotation_conversion/convert.py:187-223 | KeyError on an unknown type name or a missing 'region_of_interest' table entry; otherwise exactly one group: number 1, label region_of_interest, its codes, the graphic data unchanged, one identifier measurement aligned with it; series UID and instance number as passed, series number 33 |
| Convert.Plan | src/annotation_conversion/convert.py:283-334 | The groups the encoder emits: at most two per label, each non-empty, every index in a group has that group's label and falls inside or outside a ROI as the group says |
| Convert.LabelPlanShape | src/annotation_conversion/convert.py:286-334 | Per label, at most two groups, both of that label, the in-ROI one first when there are two |
| Convert.LabelPlanFlatten | src/annotation_conversion/convert.py:286-315 | A label's groups hold the in-ROI indices followed by the out-of-ROI indices, each ascending |
| Convert.PlanOrder | src/annotation_conversion/convert.py:284 | With labels visited in strictly sorted order, the groups are ordered by label and, within a label, in-ROI before out-of-ROI |
| Convert.LabelPlanIndices | src/annotation_conversion/convert.py:286-315 | A label's two groups together hold each index with that label exactly once |
| Convert.PlanPartition | src/annotation_conversion/convert.py:284-334 | The groups are pairwise disjoint and together hold exactly the indices whose label is one of the labels visited |
| Convert.CellGroupsPartition | src/annotation_conversion/convert.py:284-334 | Every cell whose label is a key of the cell-label table is in exactly one group; a cell with any other label is in none |
| Convert.PlanCoversOnce | src/annotation_conversion/convert.py:284-334 | For any strictly sorted label order, each index occurs once if its label is visited and not at all otherwise |
| Convert.CellGroupAligned | src/annotation_conversion/convert.py:295-329 | Graphic data and every measurement of a cell group have one entry per index of the group |
| Convert.AddGroupIfNonEmpty | src/annotation_conversion/convert.py:288-313 | Appends the group of an index list exactly when it is non-empty, numbered one past the groups so far, keeping the groups in step with the plan |
| Convert.AddLabelGroups | src/annotation_conversion/convert.py:286-334 | One label's pass appends its in-ROI then its out-of-ROI group, each only when non-empty |
| Convert.CreateBulkAnnotationsForCells | src/annotation_conversion/convert.py:277-355 | KeyError on unknown names, in order; otherwise the groups follow the plan over the sorted table keys (numbers 1..n, label codes from the table, index-aligned data and measurements, cell ids and ROI ids in ROI groups, cell ids only otherwise); series UID and instance as passed, series number 33, a fresh SOP instance UID, and the session id element added |
| RunConversion.ParseRoiAnnotations | src/annotation_conversion/run_conversion.py:80-91 | Sets ann_type to 'roi' and ann to one ROI annotation per row in row order; no other key changes |
| RunConversion.RoiFromRow | src/annotation_conversion/run_conversion.py:82-86 | The box starts at (x_in_slide, y_in_slide) and spans width by height; the identifier is the row id |
| RunConversion.RunCellLabel | src/annotation_conversion/run_conversion.py:122-125 | The consensus field for 'consensus'; for step k the k-th comma-separated session label, IndexError when there are fewer; TypeError for any other name |
| RunConversion.ParseCellAnnotations | src/annotation_conversion/run_conversion.py:118-135 | Succeeds iff every row has a label for the step; on an error the data dictionary is unchanged and the error is that of some row; otherwise ann_type 'cell' and one cell annotation per row, box (x, y, x+cell_width, y+cell_height) with the row's label for the step |
| RunConversion.ParseAnnotationsToGraphicData | src/annotation_conversion/run_conversion.py:196-234 | Returns None (data unchanged) iff the graphic data cannot be built; raises IndexError on an empty list after storing empty graphic data; otherwise adds graphic_data aligned with the annotations, then identifiers (ROI) or cell_identifiers, roi_identifiers and labels (cells), and removes 'ann'; nothing else changes |
| RunConversion.CreateDcmAnnotations | src/annotation_conversion/run_conversion.py:301-356 | Dispatches on ann_type: never raises, returns None with data unchanged when encoding fails, otherwise stores ann_dcm and removes the inputs of that kind |
| RunConversion.CreateRoiDcm | src/annotation_conversion/run_conversion.py:306-349 | The ROI branch: ann_dcm is the ROI object built from graphic_data and identifiers, and identifiers is removed |
| RunConversion.CreateCellDcm | src/annotation_conversion/run_conversion.py:316-354 | The cell branch: ann_dcm is the cell object built from the four parallel lists, and the four lists are removed |
| RunConversion.StoreCellObject | src/annotation_conversion/run_conversion.py:347-354 | Adds ann_dcm, removes the four cell inputs, and changes nothing else |
| RunConversion.OutputPathsDistinct | src/annotation_conversion/run_conversion.py:393-399 | Distinct cell steps (integers or consensus) get distinct file names, all distinct from the ROI file name |
| RunConversion.StepCount | src/annotation_conversion/run_conversion.py:465 | `len(split(','))` of the session list is at least 1 |
| RunConversion.MaxStepCount | src/annotation_conversion/run_conversion.py:466 | The maximum per-row step count: no row exceeds it and some row attains it |
| RunConversion.SessionSubsetNonEmpty | src/annotation_conversion/run_conversion.py:466-468 | For every step below the maximum, the subset of rows with more steps than k is non-empty |
| RunConversion.SessionLabelsExist | src/annotation_conversion/run_conversion.py:468-469 | Every row of step k's subset has a k-th label, so the pass never raises IndexError |
| RunConversion.SessionSubsetsNested | src/annotation_conversion/run_conversion.py:468 | The subsets are nested: filtering step j's subset by step k ≥ j gives step k's subset |
| RunConversion.AnnSteps | src/annotation_conversion/run_conversion.py:466 | `range(max)`: the steps are 0, 1, …, max-1 |
| RunConversion.CellJobNumbers | src/annotation_conversion/run_conversion.py:467-489 | One pass per step plus consensus; the pass of step k gets instance k+1; the consensus pass reuses the last step's instance number; all output paths differ |
| RunConversion.InstanceOneShared | src/annotation_conversion/run_conversion.py:448-473 | A slide with ROIs and cells writes the ROI file and the file of step 0 as two different files in one slide's series, both with instance number 1 |
| RunConversion.RoiPass | src/annotation_conversion/run_conversion.py:448-459 | Saves the ROI object as `<slide>/<slide>_rois.dcm` with instance 1 and the slide's series UID exactly when there are ROI rows and encoding succeeds; otherwise the run ends subscripting None |
| RunConversion.CellPass | src/annotation_conversion/run_conversion.py:467-477 | One session pass: saved as `…_cells_ann_step_{k+1}.dcm` with its instance number exactly when all its rows have labels and encoding succeeds |
| RunConversion.CellEncode | src/annotation_conversion/run_conversion.py:470-471 | Graphic parsing then encoding of parsed cell annotations; saved exactly when there are rows and the type names are supported |
| RunConversion.CellSave | src/annotation_conversion/run_conversion.py:471-477 | Encoding then saving cell graphic data; saved exactly when both names resolve |
| RunConversion.RoiSave | src/annotation_conversion/run_conversion.py:453-459 | Encoding then saving ROI graphic data: saved as `<slide>/<slide>_rois.dcm`, instance 1, in the slide's series, exactly when both type names resolve and the ROI code is in the label table |
| RunConversion.SessionPass | src/annotation_conversion/run_conversion.py:467-477 | Pass k over the rows with more than k labels: saved as the file of step k+1 with instance k+1 exactly when the type names are usable; it never fails for a missing label |
| RunConversion.SessionPasses | src/annotation_conversion/run_conversion.py:466-477 | The loop over `range(max)`: pass i saved as step i+1 with instance i+1; all max passes saved exactly when the type names are usable |
| RunConversion.ConsensusPass | src/annotation_conversion/run_conversion.py:479-488 | Consensus over all the slide's rows: saved under 'consensus' with the given instance number exactly when the type names are usable |
| RunConversion.SlidePasses | src/annotation_conversion/run_conversion.py:448-488 | The ROI pass when the slide has ROIs, then the cell passes when it has cells: the outputs are a prefix of the slide's planned files, all of them exactly when every pass it runs has usable type names (and the ROI code for ROIs) |
| RunConversion.CellJobsAt | src/annotation_conversion/run_conversion.py:466-488 | The planned cell files one by one: step k's file with instance k+1, then consensus as the last file with the last step's instance |
| RunConversion.CellPasses | src/annotation_conversion/run_conversion.py:462-489 | All session passes then consensus, in that order, each output matching its planned path and instance number, all under the slide's series UID |
| RunConversion.ConvertSlide | src/annotation_conversion/run_conversion.py:445-489 | The outputs of one slide are a prefix of its planned jobs (ROI file, then sessions, then consensus), all of them when the slide converts; an abort is a missing base level or a failed stage |
| RunConversion.ScheduleSlides | src/annotation_conversion/run_conversion.py:444 | Every planned job belongs to one of the listed slides |
| RunConversion.Run | src/annotation_conversion/run_conversion.py:424-489 | Over the preprocessed cells, the outputs are a prefix of the planned jobs, with the planned paths and instance numbers and series number 33; two outputs share a series UID iff they belong to the same slide; all jobs are written iff every slide converts |
| RunConversion.ConvertFolders | src/annotation_conversion/run_conversion.py:444-489 | The slide loop: the outputs follow the schedule, with one strictly increasing series UID per slide visited |
| RunConversion.FolderStep | src/annotation_conversion/run_conversion.py:445-489 | One slide of the loop extends the outputs by that slide's jobs under a fresh series UID, or stops the loop when that slide fails |
| RunConversion.SeriesUidsBySlide | src/annotation_conversion/run_conversion.py:445 | With one increasing series number per slide, two outputs share a series UID iff they come from the same slide |
| DataUtils.ReplaceInListItems | src/annotation_conversion/data_utils.py:43-45 | `_replace_in_list` keeps the number of comma-separated items and replaces each by its table value, leaving unmapped ones as they are |
| DataUtils.ReplaceUnmapped | src/annotation_conversion/data_utils.py:43-45 | A list in which no item is a key of the table is returned unchanged |
| DataUtils.TablesDisjoint | src/annotation_conversion/data_utils.py:47-66 | No value of either substitution table is a key of either table |
| DataUtils.GermanValuesUnmapped | src/annotation_conversion/data_utils.py:52-66 | Every value of the German-synonym table is a key of neither table and holds no comma |
| DataUtils.RenameValuesUnmapped | src/annotation_conversion/data_utils.py:47-51 | Every value of the rename table is a key of neither table and holds no comma |
| DataUtils.RenamedSessionItems | src/annotation_conversion/data_utils.py:68-69 | After both passes, item i is the German-then-rename image of the original item i, and no item is a key of either table |
| DataUtils.RenameSessionsIdempotent | src/annotation_conversion/data_utils.py:68-69 | Renaming the session lists a second time changes nothing |
| DataUtils.RenameConsensusIdempotent | src/annotation_conversion/data_utils.py:70 | The consensus label gets the rename table only, and a second rename changes nothing |
| DataUtils.SessionCount | src/annotation_conversion/data_utils.py:75 | The session count is 0 exactly for the empty string |
| DataUtils.SessionCountRenamed | src/annotation_conversion/data_utils.py:68-75 | Renaming does not change the number of sessions of a row |
| DataUtils.DetectionRowPreprocessed | src/annotation_conversion/data_utils.py:29-31 | A row of a file without a consensus column ends with no sessions, the label haematological_structure and session count 0 |
| DataUtils.CellTable.constructor | src/annotation_conversion/data_utils.py:33 | The table holds the concatenated rows and no session column yet |
| DataUtils.CellTable.RenameCellLabels | src/annotation_conversion/data_utils.py:41-71 | Overwrites every row with its renamed sessions and consensus label, in place, keeping the other columns |
| DataUtils.CellTable.AddNumberOfAnnotationSteps | src/annotation_conversion/data_utils.py:74-76 | Adds the session-count column, one entry per row, without changing the rows |
| DataUtils.PreprocessCells | src/annotation_conversion/data_utils.py:20-38 | The concatenated cell rows with detection defaults, renamed, each with its session count |
| DataUtils.FilterRows | src/annotation_conversion/data_utils.py:78-79 | Boolean-mask filtering keeps only rows satisfying the predicate and never adds rows |
| DataUtils.FilterIsSelection | src/annotation_conversion/data_utils.py:78-79 | The filtered rows are exactly the rows at the ascending indices the mask selects, in order |
| DataUtils.ParseRoiAnnotations | src/annotation_conversion/data_utils.py:108-118 | One ROI annotation per row, identifier roi_id and box (x1, y1, x2, y2) from columns x1, x2, y1, y2; ann_type 'roi'; nothing else changes |
| DataUtils.SessionLabel | src/annotation_conversion/data_utils.py:153 | The unreachable else branch: the label of a session index, or TypeError for a named session |
| DataUtils.CellLabel | src/annotation_conversion/data_utils.py:150-153 | Because `… or 'detection-only'` is always truthy, the label is the consensus label whatever the session |
| DataUtils.ParseCellAnnotations | src/annotation_conversion/data_utils.py:146-163 | One cell annotation per row with cell_id, roi_id, box (x1, y1, x2, y2) and the consensus label; ann_type 'cell'; nothing else changes |
| LegacyConvert.LegacyProcessAnnotation | annotation_conversion/convert.py:48-62 | Ok exactly for POLYGON and POINT, else the ValueError; POLYGON: the four corners of the box, each once; POINT: the exact centroid |
| LegacyConvert.LegacyGetGraphicData | annotation_conversion/convert.py:110-138 | KeyErrors on unknown names first; the ValueError only when there is an annotation; otherwise three lists with one entry per annotation in order, identifiers and labels copied |
| LegacyConvert.LegacyPlanShape | annotation_conversion/convert.py:185-207 | At most one group per label, each non-empty, in label order, every index having the group's label |
| LegacyConvert.LegacyPlanSorted | annotation_conversion/convert.py:185 | The groups come in sorted label order |
| LegacyConvert.LegacyPlanCount | annotation_conversion/convert.py:185-187 | Each annotation index occurs as often as its label occurs in the label list: once per listed label, never for an unlisted one |
| LegacyConvert.LegacyGroup | annotation_conversion/convert.py:188-204 | A group's graphic data and its values have one entry per index of the group |
| LegacyConvert.CreateBulkAnnotations | annotation_conversion/convert.py:178-224 | KeyErrors on unknown names; IndexError when a code row is missing for a group; otherwise the groups follow the plan with codes taken at the label's position in the sorted list; a fresh series UID, series number 204, instance 1 |
| LegacyConvert.AddLegacyGroup | annotation_conversion/convert.py:186-206 | One label of the loop appends its group when non-empty, or fails with IndexError when its code row is missing |
| LegacyConvert.LegacyCodesOwnLabel | annotation_conversion/convert.py:185-193 | When the table's label list is sorted, the codes looked up for each group are those listed beside its own label |
| LegacyConvert.LegacyCodesMisattributed | annotation_conversion/convert.py:185-193 | With the label list ['b', 'a'], the group 'a' gets the codes listed beside 'b' |
| LegacyConvert.IndexOfLabel | annotation_conversion/metadata_config.py:21-22 | The first position of a label in the table's label list, None iff it is absent |
| LegacyConvert.IntendedCodesOwnLabel | annotation_conversion/metadata_config.py:21-25 | Looking codes up by the label's own position finds the row of its own label, for any table |
| LegacyConvert.IntendedAgreesWhenSorted | annotation_conversion/convert.py:185-193 | For a strictly sorted label list (the shipped one has a single label), the position in the sorted list and the label's own position coincide |
| LegacyMain.FirstLabelLeads | annotation_conversion/__main__.py:86 | The first session label holds no comma and is the whole list or its part before the first comma |
| LegacyMain.LegacyFromRowKeeps | annotation_conversion/__main__.py:81-87 | The annotation of a row has its cell_id, the box (x, y, x+cell_width, y+cell_height) and the first session label |
| LegacyMain.ParseLegacyAnnotations | annotation_conversion/__main__.py:79-90 | Sets ann to one annotation per row in order and changes no other key |
| LegacyMain.LegacyParseToGraphicData | annotation_conversion/__main__.py:141-175 | Returns None (data unchanged) iff the graphic data cannot be built; otherwise removes 'ann' and adds graphic_data, identifiers and labels, aligned with the annotations; nothing else changes |
| LegacyMain.LegacyCreateDcm | annotation_conversion/__main__.py:229-266 | Returns None (data unchanged, IndexError logged) when a code row is missing; otherwise removes the three lists and adds ann_dcm built from them |
| LegacyMain.LegacyAnnPathInjective | annotation_conversion/__main__.py:300 | `<stem>/<stem>_ann.dcm` names the files of distinct stems distinctly |
| LegacyMain.LegacyStemsCollide | annotation_conversion/__main__.py:51 | The folders `A.x` and `A.y` share the stem `A`, so both write `<out>/A/A_ann.dcm` |
| LegacyMain.LegacySlide | annotation_conversion/__main__.py:345-351 | A slide is saved exactly when it has a base level and both stages succeed; the abort is the missing base level or the None subscript |
| LegacyMain.LegacyStages | annotation_conversion/__main__.py:348-351 | The four stages of a slide write its object exactly when the names are supported and every group has a code row |
| LegacyMain.LegacyRun | annotation_conversion/__main__.py:324-351 | Only slides with cell rows are processed, in listing order; the outputs are written for a prefix of them, all of them iff every one converts; series and SOP instance UIDs are pairwise distinct |
| LegacyMain.LegacyStep | annotation_conversion/__main__.py:344-351 | One slide of the loop: skipped without cells, otherwise its object appended under fresh UIDs or the loop stopped |
| LegacyMain.LegacyVisit | annotation_conversion/__main__.py:346-351 | A slide with cells appends one output with UIDs above all previous ones, or aborts leaving the outputs as they were |
| LegacyMain.UidsDistinct | annotation_conversion/convert.py:213-215 | UIDs drawn from the counter in increasing order are pairwise distinct across objects |
| ReadAnnFile.RoiRowsUpTo | src/misc/read_ann_file.py:12-13 | Row k is [first measurement, group label, coordinates k] |
| ReadAnnFile.AppendGroupRois | src/misc/read_ann_file.py:12-13 | The inner loop appends the group's rows after the existing ones, or raises on an empty measurement row |
| ReadAnnFile.GetRois | src/misc/read_ann_file.py:7-14 | The loop's result is the group-by-group concatenation of the zipped rows, or the first IndexError |
| ReadAnnFile.RoiRowsAbort | src/misc/read_ann_file.py:9-13 | Once a group has raised, later groups do not change the result |
| ReadAnnFile.RoiRowCount | src/misc/read_ann_file.py:9-13 | Succeeds iff no zipped measurement row is empty; then the number of rows is the sum over groups of the shorter of the two lengths |
| ReadAnnFile.RoiRoundTrip | src/misc/read_ann_file.py:12-13 | Decoding the ROI object gives back, row by row, the identifier, region_of_interest and the graphic data that were encoded |
| ReadAnnFile.FirstShort | src/misc/read_ann_file.py:23-24 | The position at which `m[1]` first raises: the first row with fewer than two values |
| ReadAnnFile.PairedUpTo | src/misc/read_ann_file.py:24 | Row k is [m[0], m[1], label, coordinates k] |
| ReadAnnFile.FallbackUpTo | src/misc/read_ann_file.py:27 | Row k is [m[0], -1, label, coordinates k] |
| ReadAnnFile.AppendGroupCells | src/misc/read_ann_file.py:22-27 | The try block appends paired rows; when a row has one value the rows already appended stay and the fallback appends every row of the group again with ROI -1 |
| ReadAnnFile.GetCells | src/misc/read_ann_file.py:17-28 | The loop's result is the group-by-group concatenation of the rows each group yields, or the first IndexError |
| ReadAnnFile.CellRowsAbort | src/misc/read_ann_file.py:19-27 | Once a group has raised, later groups do not change the result |
| ReadAnnFile.GroupCellRowsRectangular | src/misc/read_ann_file.py:22-27 | For a group whose rows all have the same width: at least two values give paired rows, one value gives ROI -1 rows, no value raises |
| ReadAnnFile.CellRowCount | src/misc/read_ann_file.py:19-27 | For such groups the number of rows is the sum of the zipped lengths |
| ReadAnnFile.CellGroupView | src/annotation_conversion/convert.py:295-329 | Read back, an encoded cell group shows its label, the coordinates at its indices, and [cell id, roi id] rows for ROI groups, [cell id] rows otherwise |
| ReadAnnFile.CellGroupRoundTrip | src/misc/read_ann_file.py:22-27 | Decoding an encoded cell group gives each cell's id, ROI id (-1 for out-of-ROI groups), label and coordinates, in group order |
| ReadAnnFile.CellObjectRoundTrip | src/misc/read_ann_file.py:17-28 | Decoding a whole cell object gives the rows of its groups in plan order, each cell as it was encoded |
| ReadAnnFile.PlanSplitsByRoi | src/annotation_conversion/convert.py:286-315 | Every encoded group is homogeneous: all its ROI ids are -1, or none is |
| ExportToGeojson.GraphicDataOf | src/misc/export_to_geojson.py:10 | The graphic data of each group, in group order |
| ExportToGeojson.GetAnnotations | src/misc/export_to_geojson.py:7-14 | The extend loop yields the graphic data of all groups concatenated in group order |
| ExportToGeojson.AnnotationsCounted | src/misc/export_to_geojson.py:9-12 | The collected list has one entry per annotation of the object |
| ExportToGeojson.AnnotationsInGroupOrder | src/misc/export_to_geojson.py:9-12 | Annotation k of group j sits after all annotations of earlier groups, at offset k |
| ExportToGeojson.AnnotationToGeojson | src/misc/export_to_geojson.py:16-19 | IndexError iff the annotation is empty; otherwise one ring of n+1 points whose first n are the input and whose last is the first |
| ExportToGeojson.RingClosedAndInvertible | src/misc/export_to_geojson.py:17 | The ring is closed, and dropping its last point gives the annotation back |
| ExportToGeojson.Polygons | src/misc/export_to_geojson.py:26 | The comprehension succeeds iff no annotation is empty, with one polygon per annotation in order |
| ExportToGeojson.AnnToGeojson | src/misc/export_to_geojson.py:21-37 | A FeatureCollection with one Feature named 'Cell or ROI' whose MultiPolygon has one closed polygon per annotation in group order, or the IndexError of an empty annotation |
| ExportToGeojson.ExportCountsAnnotations | src/misc/export_to_geojson.py:26-34 | The MultiPolygon has exactly as many polygons as the object has annotations |
| GitUtils.GitCommitHash | src/git_utils.py:16-25 | 'unknown' outside a repository; otherwise the head commit, with ' (dirty)' added exactly when the tree is dirty |
| GitUtils.CommitHashDirtyMarker | src/git_utils.py:21-23 | For a commit text without spaces, the result ends with ' (dirty)' iff the tree is dirty, and starts with the commit |
| GitUtils.StripPrefixes | src/git_utils.py:36-38 | Stripping the schemes in turn leaves a suffix of the remote |
| GitUtils.StripGitSuffix | src/git_utils.py:34-35 | One trailing '.git' is removed, and only when present |
| GitUtils.SimplifiedRemote | src/git_utils.py:28-51 | A remote of at most 64 characters is returned as is; any returned remote has at most 64 characters; otherwise ValueError |
| GitUtils.SimplifyRemote | src/git_utils.py:28-51 | The step-by-step rewriting computes the simplified remote |
| GitUtils.SimplifiedNeverLonger | src/git_utils.py:34-44 | Simplification never lengthens the remote |
| GitUtils.SimplifyIdempotent | src/git_utils.py:30-31 | Simplifying a simplified remote changes nothing |
| GitUtils.StrippingSuffices | src/git_utils.py:40-41 | When stripping suffix and schemes reaches 64 characters, no github rewrite happens |
| GitUtils.SimplifyFails | src/git_utils.py:46-49 | ValueError iff the remote, the stripped remote and the rewritten remote are all longer than 64 |
| GitUtils.SshToHttps | src/git_utils.py:76-81 | An ssh remote becomes one starting with 'https://'; any other remote is unchanged |
| GitUtils.SshSlashedKeepsUser | src/git_utils.py:78-80 | Replacing ':' by '/' keeps the 'git@' start, so the second replacement applies |
| GitUtils.GitRemoteUrl | src/git_utils.py:65-86 | 'unknown' without a repository or remote; otherwise the first remote, ssh rewritten, simplified when asked |
| GitUtils.SshRemoteUrl | src/git_utils.py:76-84 | A short enough ssh remote comes out as its https form, unchanged by simplification |
| AddMetadata.FindPropertyBySuffix | src/image_conversion/add_metadata.py:40-44 | The value of the first key, in iteration order, whose lower-cased form ends with the suffix; None iff there is none |
| AddMetadata.UpperSuffixNeverMatches | src/image_conversion/add_metadata.py:42 | The suffix is not lower-cased, so one holding an upper-case letter matches no key |
| AddMetadata.TermsByCode | src/image_conversion/add_metadata.py:35 | The code-to-term dictionary has exactly the codes of the rows as keys |
| AddMetadata.TermsByCodeLast | src/image_conversion/add_metadata.py:35 | A repeated code keeps the term of its last row |
| AddMetadata.ReadNciThesaurus | src/image_conversion/add_metadata.py:33-37 | The codes of the CSV plus C3182; C3182 always maps to the fixed meaning; every other code to the term of its last row |
| AddMetadata.AddHeadElements | src/image_conversion/add_metadata.py:121-128 | The dataset holds exactly the seven unconditional elements, each with its VR and value |
| AddMetadata.AddDiagnosisCode | src/image_conversion/add_metadata.py:135-139 | The code sequence is added only when the code is a string, with code, 'NCIt' and meaning; nothing else changes |
| AddMetadata.AddOtherProtocol | src/image_conversion/add_metadata.py:141-143 | The protocol-id sequence is always added with id and issuer; nothing else changes |
| AddMetadata.AddAcquisitionContext | src/image_conversion/add_metadata.py:145-151 | The context sequence with TEXT, the JSON text and a concept-name item whose one element (0008,0100) holds what was written last |
| AddMetadata.BuildAdditionalMetadata | src/image_conversion/add_metadata.py:121-153 | TypeError iff both admitting diagnoses are strings; otherwise the head elements, the code sequence iff the code is a string, the protocol and context sequences |
| AddMetadata.BuildAdditionalMetadataIntended | src/image_conversion/add_metadata.py:130-151 | The corrected builder: the two diagnoses joined with ',' when both are strings, and a concept name with value, scheme and meaning in their own tags |
| AddMetadata.AddAcquisitionContextIntended | src/image_conversion/add_metadata.py:145-151 | The corrected context: concept name code 121106, scheme DCM, meaning Comment |
| AddMetadata.AddDiagnosesDescription | src/image_conversion/add_metadata.py:130-132 | The corrected join: when both admitting diagnoses are strings, Admitting Diagnoses Description is the two joined by ','; otherwise the dataset is unchanged |
| AddMetadata.JoinedDiagnosesSplit | src/image_conversion/add_metadata.py:131 | The joined diagnoses split back into the two diagnoses |
| AddMetadata.ConceptNameOverwritten | src/image_conversion/add_metadata.py:148-150 | As written, the concept name holds only (0008,0100) = 'Comment': no scheme or meaning, unlike the intended one |
| LegacyAddMetadata.Lookup | image_conversion/add_metadata.py:45-49 | A property subscript: the value iff the key is present, else KeyError(key) |
| LegacyAddMetadata.AccessionNumber | image_conversion/add_metadata.py:56 | `patient_id[:8]`: a prefix of the patient id, of length min(8, length) |
| LegacyAddMetadata.BuildMetadata | image_conversion/add_metadata.py:36-94 | Ok iff both MIRAX keys exist and the patient is in the clinical table, else the first KeyError in evaluation order; the manufacturer, the two suffix lookups, date, objective, accession number, patient, gender and the identifiers |
| LegacyAddMetadata.BuildAdditionalMetadata | image_conversion/add_metadata.py:97-119 | Exactly the seven elements, the diagnosis code sequence always present with the code, 'NCIt' and the meaning |
| CountFiles.RegularFiles | src/count_files_by_prefix.py:11 | No more names than entries; every name kept is a regular-file entry, and every regular-file entry's name is kept |
| CountFiles.RegularFilesSelection | src/count_files_by_prefix.py:11 | The kept names are exactly those at the ascending positions where the entry is a regular file, in the walk's order |
| CountFiles.CountsPartition | src/count_files_by_prefix.py:13-14 | Prefix and non-prefix counts add up to the number of files |
| CountFiles.FolderRow | src/count_files_by_prefix.py:11-21 | The folder's row: names starting with the prefix and the rest, summing to the number of regular files |
| CountFiles.CountFilesByPrefix | src/count_files_by_prefix.py:6-23 | None iff the walk is empty; otherwise at most one row, present iff the first folder walked ends in '_bm', with that folder's counts |
| CountFiles.EmptyFolderCounts | src/misc/count_files_by_prefix.py:15-16 | A folder without regular files gives (0, 0) |
| CountFiles.ExportToCsv | src/count_files_by_prefix.py:26-31 | The header row, then folder and both counts per result, in order; iterating None raises TypeError after the header |
| CountFiles.ExportedCountsReadBack | src/misc/count_files_by_prefix.py:31 | Both counts are read back from their CSV fields |
| SummarizeErrors.SummarizeErrorsIn | src/verification/summarize_errors.py:5-14 | The nested loops write exactly the summary of the listing |
| SummarizeErrors.ErrorLinesSound | src/verification/summarize_errors.py:12-14 | Every summary line of a file is its name, ': ' and one of its lines starting with 'Error', verbatim |
| SummarizeErrors.ErrorLinesComplete | src/verification/summarize_errors.py:12-14 | Every error line of a file is in the summary, and lines keep their order |
| SummarizeErrors.ErrorLineAt | src/verification/summarize_errors.py:13-14 | The position in the summary of an error line, counting the error lines before it |
| SummarizeErrors.SummarySound | src/verification/summarize_errors.py:8-14 | Every summary line comes from an error line of a listed file whose name ends in '_output.txt' |
| SummarizeErrors.SummaryNeverRead | src/verification/summarize_errors.py:6-9 | The summary file does not end in '_output.txt', so it contributes nothing however the listing is ordered |
| ChangeImageType.PatchImageType | change_image_type.py:11-13 | The patch applies exactly when there are at least 4 values, the first ORIGINAL and the fourth RESAMPLED; then only the first becomes DERIVED; IndexError for no values or for ORIGINAL with 2 or 3 values |
| ChangeImageType.PatchIdempotent | change_image_type.py:11-13 | After the patch the condition fails, so a second run changes nothing |
| ChangeImageType.DicomFile.Read | change_image_type.py:10 | The dataset read holds the Image Type stored in the file |
| ChangeImageType.DicomFile.ChangeImageType | change_image_type.py:11-15 | The dataset is patched in place and saved once exactly when the condition holds; otherwise file and dataset are unchanged |

## Left out

- Floating point is not modelled:
  - the `float32` cast of the graphic data (src/annotation_conversion/convert.py:77, annotation_conversion/convert.py:71);
  - the measurement arrays;
  - the acquisition duration.
  Coordinates are exact integers. The older variant's coordinates are exact reals.
- SCOORD3D: the image-to-reference transform is a floating-point call into highdicom. The graphic
  data is stated only for SCOORD, and for SCOORD3D only its length.
- OpenSlide: the crop bounds are a parameter instead of being read from the slide.
- Source-image metadata: `get_source_image_metadata`'s pydicom read is left out. Only its
  `find_base_level` is modelled.
- Shapely: in the older variant the vertex order of `box(...).exterior` is shapely's. The model fixes
  one order and states only "the four corners, each once".
- highdicom and pydicom objects: groups and objects are plain records. `save_as` is the recorded
  path of the saved object, and `annread` is the list of groups. UIDs are numbers from a counter.
  Static strings such as series descriptions and algorithm identification are not carried.
- pandas and `csv`: reading and concatenating the CSVs and DataFrame row plumbing are left out. CSV
  quoting is not modelled either. Rows are typed records.
- Logging, timing and error-CSV writing in the try/except blocks are left out. A caught exception
  becomes `ReturnedNone` carrying the exception.
- `print` calls are left out, including the debug prints of the export and ImageType scripts.
- The git library: `git.Repo` and its exceptions become a repository record.
- File system: `os.listdir`, `os.walk`, `open` and line iteration become sequence parameters.
- `datetime.strptime` in `build_metadata` is not evaluated. The date text is carried as is, so its
  ValueError on a malformed date is not modelled.
- LegacyAddMetadata.BuildMetadata does not check that `PatientSex` accepts the gender value.
  It also does not carry the specimen, sampling and staining codes, which are fixed.
- The broken call sites in the newer entry point are not modelled. At
  src/annotation_conversion/run_conversion.py:201-206 the MIRAX path is omitted; at 317-327
  `ann_session` is omitted. The model calls the callee definitions with the arguments they declare.
- The label and code tables of both `metadata_config.py` files are parameters. The newer encoder
  uses names that this file does not define (`cell_labels`, `roi_labels`, `code_roi_identifier`,
  `series_description_cell_anns`, `add_clinical_trial_series_id`). The model takes the cell and ROI
  tables as maps, and the session-id element as one record.
- RunConversion.Run is stated over `os.listdir` order of the slide folders, which the model takes as
  given.
- ExportToGeojson.AnnToGeojson: the `json` text and the initial `None` geometry type (modelled as
  the empty string before it is overwritten) are not modelled.
- AddMetadata.FindPropertyBySuffix lower-cases ASCII letters only. Python's `str.lower` also
  folds non-ASCII letters, so a key whose suffix matches only after Unicode folding is not found by
  the model.
- ReadAnnFile.GetRois and ReadAnnFile.GetCells: decoding takes each group's measurement table as
  rows. The round-trip lemmas use the aligned groups the encoder builds. A group whose measurement
  arrays differ in length (`Aligned` fails) is outside the round trip.
- ChangeImageType.DicomFile.ChangeImageType: a file without an ImageType element (AttributeError)
  is not modelled. A single value is pydicom's plain string, whose first character never equals
  'ORIGINAL', and no values is the empty string.
- LegacyConvert.CreateBulkAnnotations takes category and type codes at the label's position in the
  sorted label list, as written. With an unsorted table this gives a label another label's codes
  (LegacyCodesMisattributed). The shipped table has one label, so the two positions agree
  (IntendedAgreesWhenSorted); the lookup by the label's own position is given as a reference.

## Findings

| source | as written | input that shows it | evidently intended | confidence | as-written member | corrected member |
|---|---|---|---|---|---|---|
| src/image_conversion/add_metadata.py:130-132 | `','.join(a, b)` passes two arguments to `str.join`, which takes one iterable | both admitting diagnoses are strings, e.g. ('AML', 'MDS'): TypeError, so no dataset is built | `','.join([a, b])`, giving 'AML,MDS' as Admitting Diagnoses Description | not executed | AddMetadata.BuildAdditionalMetadata | AddMetadata.BuildAdditionalMetadataIntended |
| src/image_conversion/add_metadata.py:148-150 | CodeValue, CodingSchemeDesignator and CodeMeaning of the concept name are all written to tag (0008,0100) | any call: the concept-name item ends with only (0008,0100) = 'Comment' (VR LO) | (0008,0100) = 121106, (0008,0102) = DCM, (0008,0104) = Comment | not executed | AddMetadata.ConceptNameOverwritten | AddMetadata.AddAcquisitionContextIntended |
