/**
 * The metadata helpers of the image conversion: looking a scanner property up by
 * the end of its name, the NCI Thesaurus table with its one manual entry, and the
 * extra DICOM data elements (clinical trial, diagnosis and acquisition context
 * attributes) that the conversion adds to every image. A pydicom dataset is a map
 * from tag to element; a sequence element holds a list of nested datasets.
 */
module AddMetadata {
  import opened Wrappers
  import opened Strings

  // ---------------------------------------------------------------------------
  // find_property_by_suffix

  /** A property map in the order its keys are iterated: (name, value) pairs. */
  type Properties = seq<(string, string)>

  /** The lower-cased name of property `i` ends with `suffix`. */
  predicate NameEndsWith(properties: Properties, i: int, suffix: string)
    requires 0 <= i < |properties|
  {
    EndsWith(AsciiLower(properties[i].0), suffix)
  }

  /**
   * `find_property_by_suffix`: the value of the first property, in iteration order,
   * whose lower-cased name ends with `suffix`, and None if there is none. The suffix
   * itself is compared as given, so one holding an upper-case letter never matches.
   */
  method FindPropertyBySuffix(properties: Properties, suffix: string) returns (r: Option<string>)
    ensures r.None? <==> forall i :: 0 <= i < |properties| ==> !NameEndsWith(properties, i, suffix)
    ensures r.Some? ==>
      exists i :: && 0 <= i < |properties| && NameEndsWith(properties, i, suffix)
                  && r.value == properties[i].1
                  && forall j :: 0 <= j < i ==> !NameEndsWith(properties, j, suffix)
  {
    for i := 0 to |properties|
      invariant forall j :: 0 <= j < i ==> !NameEndsWith(properties, j, suffix)
    {
      if EndsWith(AsciiLower(properties[i].0), suffix) {
        assert NameEndsWith(properties, i, suffix);
        return Some(properties[i].1);
      }
    }
    return None;
  }

  /** A suffix holding an upper-case letter matches no name, so the lookup finds nothing. */
  lemma UpperSuffixNeverMatches(properties: Properties, suffix: string)
    requires exists k :: 0 <= k < |suffix| && IsUpper(suffix[k])
    ensures forall i :: 0 <= i < |properties| ==> !NameEndsWith(properties, i, suffix)
  {
    forall i | 0 <= i < |properties| ensures !NameEndsWith(properties, i, suffix) {
      LowerNeverEndsWithUpper(properties[i].0, suffix);
    }
  }

  // ---------------------------------------------------------------------------
  // read_nci_thesaurus

  /** The code the thesaurus file lacks, and the meaning the code adds for it. */
  const ManualCode := "C3182"
  const ManualMeaning := "Acute Promyelocytic Leukemia with t(15;17)(q24.1;q21.2); PML-RARA"

  /**
   * `df.set_index('Code')['Preferred Term'].to_dict()` on the rows (code, preferred
   * term) of the CSV: the dictionary is filled in row order, so a later row with the
   * same code wins.
   */
  function TermsByCode(rows: seq<(string, string)>): (terms: map<string, string>)
    ensures terms.Keys == set i | 0 <= i < |rows| :: rows[i].0
    decreases |rows|
  {
    if rows == [] then map[]
    else
      var n := |rows| - 1;
      var earlier := TermsByCode(rows[..n]);
      assert forall i :: 0 <= i < n ==> rows[..n][i] == rows[i];
      earlier[rows[n].0 := rows[n].1]
  }

  /** Row `i` is the last row of `rows` with code `code`. */
  predicate LastRowOf(rows: seq<(string, string)>, i: int, code: string) {
    0 <= i < |rows| && rows[i].0 == code && forall j :: i < j < |rows| ==> rows[j].0 != code
  }

  /** Each code of the dictionary maps to the term of its last row. */
  lemma {:induction false} TermsByCodeLast(rows: seq<(string, string)>, code: string)
    requires code in TermsByCode(rows)
    ensures exists i :: LastRowOf(rows, i, code) && TermsByCode(rows)[code] == rows[i].1
    decreases |rows|
  {
    var n := |rows| - 1;
    if rows[n].0 == code {
      assert LastRowOf(rows, n, code);
    } else {
      var earlier := rows[..n];
      assert code in TermsByCode(earlier);
      TermsByCodeLast(earlier, code);
      var i :| LastRowOf(earlier, i, code) && TermsByCode(earlier)[code] == earlier[i].1;
      assert LastRowOf(rows, i, code);
    }
  }

  /**
   * `read_nci_thesaurus`: the table of the CSV, with 'C3182' set to its fixed meaning
   * whatever the file says; every other code keeps the term of its last row.
   */
  function ReadNciThesaurus(rows: seq<(string, string)>): (ncit: map<string, string>)
    ensures ncit.Keys == (set i | 0 <= i < |rows| :: rows[i].0) + {ManualCode}
    ensures ncit[ManualCode] == ManualMeaning
    ensures forall code :: code in ncit && code != ManualCode ==>
      exists i :: LastRowOf(rows, i, code) && ncit[code] == rows[i].1
  {
    var terms := TermsByCode(rows);
    forall code | code in terms
      ensures exists i :: LastRowOf(rows, i, code) && terms[code] == rows[i].1
    {
      TermsByCodeLast(rows, code);
    }
    terms[ManualCode := ManualMeaning]
  }

  // ---------------------------------------------------------------------------
  // Datasets

  /** A data element tag (group, element). */
  datatype Tag = Tag(group: nat, element: nat)

  /** What an element holds: text, a number, pandas' NaN for a missing value, or nested datasets. */
  datatype DicomValue =
    | Str(s: string)
    | Float(x: real)
    | Nan
    | Items(items: seq<Item>)

  /** A data element: its value representation and its value. */
  datatype Element = Element(vr: string, value: DicomValue)

  /** A dataset, as nested in a sequence element or at the top level. */
  datatype Item = Item(elements: map<Tag, Element>)

  type Dataset = map<Tag, Element>

  const SeriesDescription := Tag(0x0008, 0x103E)
  const StudyDescription := Tag(0x0008, 0x1030)
  const PatientAge := Tag(0x0010, 0x1010)
  const AcquisitionDuration := Tag(0x0018, 0x9073)
  const ClinicalTrialCoordinatingCenterName := Tag(0x0012, 0x0060)
  const ClinicalTrialProtocolName := Tag(0x0012, 0x0021)
  const ClinicalTrialSponsorName := Tag(0x0012, 0x0010)
  const AdmittingDiagnosesDescription := Tag(0x0008, 0x1080)
  const AdmittingDiagnosesCodeSequence := Tag(0x0008, 0x1084)
  const CodeValue := Tag(0x0008, 0x0100)
  const CodingSchemeDesignator := Tag(0x0008, 0x0102)
  const CodeMeaning := Tag(0x0008, 0x0104)
  const OtherClinicalTrialProtocolIdsSequence := Tag(0x0012, 0x0023)
  const OtherClinicalTrialProtocolId := Tag(0x0012, 0x0020)
  const IssuerOfClinicalTrialProtocolId := Tag(0x0012, 0x0022)
  const AcquisitionContextSequence := Tag(0x0040, 0x0555)
  const ValueType := Tag(0x0040, 0xA040)
  const ConceptNameCodeSequence := Tag(0x0040, 0xA043)
  const TextValue := Tag(0x0040, 0xA160)

  /** A spreadsheet cell read by pandas: a text, or NaN when it is empty. */
  datatype Field = Given(text: string) | Missing

  function FieldValue(f: Field): DicomValue {
    match f
    case Given(t) => Str(t)
    case Missing => Nan
  }

  /** The arguments of `build_additional_metadata`, the scanner properties already serialised to JSON. */
  datatype ClinicalInfo = ClinicalInfo(
    studyDescription: string,
    seriesDescription: string,
    patientAge: string,
    acquisitionDuration: real,
    diagnosisCode: Field,
    diagnosisMeaning: Field,
    admittingDiagnoses: (Field, Field),
    coordinatingCenter: string,
    protocolName: string,
    sponsor: string,
    otherProtocolId: string,
    otherProtocolIdIssuer: string,
    miraxPropertiesJson: string)

  /** What `','.join(a, b)` raises: `str.join` takes one argument. */
  const JoinTwoArguments := TypeError("str.join() takes exactly one argument (2 given)")

  /** Both admitting-diagnosis fields hold text. */
  predicate BothDiagnoses(info: ClinicalInfo) {
    info.admittingDiagnoses.0.Given? && info.admittingDiagnoses.1.Given?
  }

  /** The elements set first: descriptions, age, acquisition duration, clinical trial names. */
  predicate HeadElements(ds: Dataset, info: ClinicalInfo) {
    && SeriesDescription in ds && ds[SeriesDescription] == Element("LO", Str(info.seriesDescription))
    && StudyDescription in ds && ds[StudyDescription] == Element("LO", Str(info.studyDescription))
    && PatientAge in ds && ds[PatientAge] == Element("AS", Str(info.patientAge))
    && AcquisitionDuration in ds && ds[AcquisitionDuration] == Element("FD", Float(info.acquisitionDuration))
    && ClinicalTrialCoordinatingCenterName in ds
    && ds[ClinicalTrialCoordinatingCenterName] == Element("LO", Str(info.coordinatingCenter))
    && ClinicalTrialProtocolName in ds && ds[ClinicalTrialProtocolName] == Element("LO", Str(info.protocolName))
    && ClinicalTrialSponsorName in ds && ds[ClinicalTrialSponsorName] == Element("LO", Str(info.sponsor))
  }

  const HeadTags: set<Tag> := {
    SeriesDescription, StudyDescription, PatientAge, AcquisitionDuration, ClinicalTrialCoordinatingCenterName,
    ClinicalTrialProtocolName, ClinicalTrialSponsorName}

  /** The two sequences added whatever the clinical fields hold. */
  const TailTags: set<Tag> := {OtherClinicalTrialProtocolIdsSequence, AcquisitionContextSequence}

  /** The other-protocol item: the protocol id and its issuer. */
  function ProtocolItem(id: string, issuer: string): Item {
    Item(map[OtherClinicalTrialProtocolId := Element("LO", Str(id)),
             IssuerOfClinicalTrialProtocolId := Element("LO", Str(issuer))])
  }

  /** The diagnosis code item: the code, the scheme 'NCIt', and the meaning. */
  function DiagnosisCodeItem(code: string, meaning: Field): Item {
    Item(map[CodeValue := Element("SH", Str(code)), CodingSchemeDesignator := Element("SH", Str("NCIt")),
             CodeMeaning := Element("LO", FieldValue(meaning))])
  }

  /** The acquisition context item around a concept name item. */
  function ContextItem(conceptName: Item, json: string): Item {
    Item(map[ValueType := Element("CS", Str("TEXT")), ConceptNameCodeSequence := Element("SQ", Items([conceptName])),
             TextValue := Element("UT", Str(json))])
  }

  /**
   * The elements set first, in both versions: descriptions, age, duration and the
   * clinical trial names.
   */
  method AddHeadElements(info: ClinicalInfo) returns (ds: Dataset)
    ensures ds.Keys == HeadTags
    ensures HeadElements(ds, info)
  {
    ds := map[];
    ds := ds[SeriesDescription := Element("LO", Str(info.seriesDescription))];
    ds := ds[StudyDescription := Element("LO", Str(info.studyDescription))];
    ds := ds[PatientAge := Element("AS", Str(info.patientAge))];
    ds := ds[AcquisitionDuration := Element("FD", Float(info.acquisitionDuration))];
    ds := ds[ClinicalTrialCoordinatingCenterName := Element("LO", Str(info.coordinatingCenter))];
    ds := ds[ClinicalTrialProtocolName := Element("LO", Str(info.protocolName))];
    ds := ds[ClinicalTrialSponsorName := Element("LO", Str(info.sponsor))];
  }

  /**
   * The diagnosis code sequence, added only when the code is text (pandas gives NaN
   * for an empty cell). Each nested dataset is filled by `add_new` calls and is
   * then the one item of its sequence element.
   */
  method AddDiagnosisCode(ds: Dataset, code: Field, meaning: Field) returns (ds': Dataset)
    ensures ds' == if code.Given? then
      ds[AdmittingDiagnosesCodeSequence := Element("SQ", Items([DiagnosisCodeItem(code.text, meaning)]))]
    else ds
  {
    ds' := ds;
    if code.Given? {
      var item: Dataset := map[];
      item := item[CodeValue := Element("SH", Str(code.text))];
      item := item[CodingSchemeDesignator := Element("SH", Str("NCIt"))];
      item := item[CodeMeaning := Element("LO", FieldValue(meaning))];
      ds' := ds'[AdmittingDiagnosesCodeSequence := Element("SQ", Items([Item(item)]))];
    }
  }

  /** The other clinical trial protocol id sequence, always added. */
  method AddOtherProtocol(ds: Dataset, id: string, issuer: string) returns (ds': Dataset)
    ensures ds' == ds[OtherClinicalTrialProtocolIdsSequence := Element("SQ", Items([ProtocolItem(id, issuer)]))]
  {
    var item: Dataset := map[];
    item := item[OtherClinicalTrialProtocolId := Element("LO", Str(id))];
    item := item[IssuerOfClinicalTrialProtocolId := Element("LO", Str(issuer))];
    ds' := ds[OtherClinicalTrialProtocolIdsSequence := Element("SQ", Items([Item(item)]))];
  }

  /**
   * The acquisition context sequence as written: the three elements of its concept
   * name item are all added under tag (0008,0100), so each replaces the one before
   * and only the last, 'Comment' with VR LO, remains.
   */
  method AddAcquisitionContext(ds: Dataset, json: string) returns (ds': Dataset)
    ensures ds' == ds[AcquisitionContextSequence := Element("SQ", Items([ContextItem(OverwrittenConcept, json)]))]
  {
    var context: Dataset := map[];
    context := context[ValueType := Element("CS", Str("TEXT"))];
    var conceptName: Dataset := map[];
    conceptName := conceptName[CodeValue := Element("SH", Str("121106"))];
    conceptName := conceptName[CodeValue := Element("SH", Str("DCM"))];
    conceptName := conceptName[CodeValue := Element("LO", Str("Comment"))];
    assert conceptName == OverwrittenConcept.elements;
    context := context[ConceptNameCodeSequence := Element("SQ", Items([Item(conceptName)]))];
    context := context[TextValue := Element("UT", Str(json))];
    ds' := ds[AcquisitionContextSequence := Element("SQ", Items([Item(context)]))];
  }

  /** What the concept name item holds as written. */
  const OverwrittenConcept := Item(map[CodeValue := Element("LO", Str("Comment"))])

  /**
   * `build_additional_metadata` as written. The admitting diagnoses are joined by
   * `','.join(a, b)`, which raises TypeError whenever both fields hold text; the
   * diagnosis code sequence is added only when the code is text; the other-protocol
   * and acquisition-context sequences always are, the latter with the overwritten
   * concept name.
   */
  method BuildAdditionalMetadata(info: ClinicalInfo) returns (r: Result<Dataset>)
    ensures r.Err? <==> BothDiagnoses(info)
    ensures r.Err? ==> r.error == JoinTwoArguments
    ensures r.Ok? ==>
      && r.value.Keys == HeadTags + TailTags + (if info.diagnosisCode.Given? then {AdmittingDiagnosesCodeSequence} else {})
      && HeadElements(r.value, info)
      && (info.diagnosisCode.Given? ==>
            r.value[AdmittingDiagnosesCodeSequence] ==
              Element("SQ", Items([DiagnosisCodeItem(info.diagnosisCode.text, info.diagnosisMeaning)])))
      && r.value[OtherClinicalTrialProtocolIdsSequence] ==
           Element("SQ", Items([ProtocolItem(info.otherProtocolId, info.otherProtocolIdIssuer)]))
      && r.value[AcquisitionContextSequence] ==
           Element("SQ", Items([ContextItem(OverwrittenConcept, info.miraxPropertiesJson)]))
  {
    var ds := AddHeadElements(info);
    if BothDiagnoses(info) {
      return Err(JoinTwoArguments);
    }
    ds := AddDiagnosisCode(ds, info.diagnosisCode, info.diagnosisMeaning);
    ds := AddOtherProtocol(ds, info.otherProtocolId, info.otherProtocolIdIssuer);
    ds := AddAcquisitionContext(ds, info.miraxPropertiesJson);
    r := Ok(ds);
  }

  // ---------------------------------------------------------------------------
  // The evidently intended version

  /** The concept name of the acquisition context: code 121106 of scheme DCM, 'Comment'. */
  const CommentConcept := Item(map[CodeValue := Element("SH", Str("121106")),
                                   CodingSchemeDesignator := Element("SH", Str("DCM")),
                                   CodeMeaning := Element("LO", Str("Comment"))])

  /** The acquisition context sequence with each code attribute under its own tag. */
  method AddAcquisitionContextIntended(ds: Dataset, json: string) returns (ds': Dataset)
    ensures ds' == ds[AcquisitionContextSequence := Element("SQ", Items([ContextItem(CommentConcept, json)]))]
  {
    var context: Dataset := map[];
    context := context[ValueType := Element("CS", Str("TEXT"))];
    var conceptName: Dataset := map[];
    conceptName := conceptName[CodeValue := Element("SH", Str("121106"))];
    conceptName := conceptName[CodingSchemeDesignator := Element("SH", Str("DCM"))];
    conceptName := conceptName[CodeMeaning := Element("LO", Str("Comment"))];
    context := context[ConceptNameCodeSequence := Element("SQ", Items([Item(conceptName)]))];
    context := context[TextValue := Element("UT", Str(json))];
    ds' := ds[AcquisitionContextSequence := Element("SQ", Items([Item(context)]))];
  }

  /**
   * `build_additional_metadata` with the two slips corrected: the admitting
   * diagnoses are joined as one list, `','.join([a, b])`, and the concept name item
   * gets its code value, coding scheme and code meaning under their own tags.
   */
  method BuildAdditionalMetadataIntended(info: ClinicalInfo) returns (ds: Dataset)
    ensures ds.Keys == HeadTags + TailTags
                       + (if BothDiagnoses(info) then {AdmittingDiagnosesDescription} else {})
                       + (if info.diagnosisCode.Given? then {AdmittingDiagnosesCodeSequence} else {})
    ensures HeadElements(ds, info)
    ensures BothDiagnoses(info) ==>
      ds[AdmittingDiagnosesDescription] ==
        Element("LO", Str(Join([info.admittingDiagnoses.0.text, info.admittingDiagnoses.1.text], ',')))
    ensures info.diagnosisCode.Given? ==>
      ds[AdmittingDiagnosesCodeSequence] ==
        Element("SQ", Items([DiagnosisCodeItem(info.diagnosisCode.text, info.diagnosisMeaning)]))
    ensures ds[OtherClinicalTrialProtocolIdsSequence] ==
      Element("SQ", Items([ProtocolItem(info.otherProtocolId, info.otherProtocolIdIssuer)]))
    ensures ds[AcquisitionContextSequence] == Element("SQ", Items([ContextItem(CommentConcept, info.miraxPropertiesJson)]))
  {
    ds := AddHeadElements(info);
    ds := AddDiagnosesDescription(ds, info);
    assert ds.Keys == HeadTags + (if BothDiagnoses(info) then {AdmittingDiagnosesDescription} else {});
    ds := AddDiagnosisCode(ds, info.diagnosisCode, info.diagnosisMeaning);
    ds := AddOtherProtocol(ds, info.otherProtocolId, info.otherProtocolIdIssuer);
    ds := AddAcquisitionContextIntended(ds, info.miraxPropertiesJson);
  }

  /** The admitting diagnoses description, `','.join([a, b])`, added only when both diagnoses are text. */
  method AddDiagnosesDescription(ds: Dataset, info: ClinicalInfo) returns (ds': Dataset)
    ensures ds' == if BothDiagnoses(info) then
      ds[AdmittingDiagnosesDescription :=
           Element("LO", Str(Join([info.admittingDiagnoses.0.text, info.admittingDiagnoses.1.text], ',')))]
    else ds
  {
    ds' := ds;
    if BothDiagnoses(info) {
      var joined := Join([info.admittingDiagnoses.0.text, info.admittingDiagnoses.1.text], ',');
      ds' := ds'[AdmittingDiagnosesDescription := Element("LO", Str(joined))];
    }
  }

  /** The joined description gives both diagnoses back when neither holds a comma. */
  lemma JoinedDiagnosesSplit(a: string, b: string)
    requires ',' !in a && ',' !in b
    ensures Join([a, b], ',') == a + "," + b
    ensures Split(a + "," + b, ',') == [a, b]
  {
    assert [a, b][1..] == [b];
    SplitJoin([a, b], ',');
  }

  /** As written, the concept name item lost its coding scheme and meaning, and its code value is the meaning. */
  lemma ConceptNameOverwritten()
    ensures OverwrittenConcept != CommentConcept
    ensures CodingSchemeDesignator !in OverwrittenConcept.elements && CodeMeaning !in OverwrittenConcept.elements
    ensures OverwrittenConcept.elements[CodeValue] == Element("LO", Str("Comment"))
  {
    assert CodingSchemeDesignator in CommentConcept.elements;
  }
}
