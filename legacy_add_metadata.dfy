/**
 * The metadata helpers of the older image conversion: the record of slide,
 * patient, equipment and study attributes handed to the converter, and the extra
 * DICOM data elements it adds. The property lookup by suffix is the same function
 * as in the current conversion and is used from there.
 */
module LegacyAddMetadata {
  import opened Wrappers
  import opened Strings
  import opened AddMetadata

  /** `mrxs_metadata[key]`: the value of the property named `key`, KeyError if there is none. */
  function Lookup(properties: Properties, key: string): (r: Result<string>)
    ensures r.Ok? <==> exists i :: 0 <= i < |properties| && properties[i].0 == key
    ensures r.Ok? ==> exists i :: 0 <= i < |properties| && properties[i] == (key, r.value)
    ensures r.Err? ==> r.error == KeyError(key)
    decreases |properties|
  {
    if properties == [] then Err(KeyError(key))
    else if properties[0].0 == key then Ok(properties[0].1)
    else
      var r := Lookup(properties[1..], key);
      assert forall i :: 1 <= i < |properties| ==> properties[i] == properties[1..][i - 1];
      if r.Ok? then
        assert exists i :: 0 <= i < |properties[1..]| && properties[1..][i] == (key, r.value);
        r
      else r
  }

  /** `patient_id[:8]`: an accession number fits the eight characters of a DICOM SH value. */
  function AccessionNumber(patientId: string): (r: string)
    ensures |r| <= 8 && StartsWith(patientId, r)
    ensures |r| == if |patientId| <= 8 then |patientId| else 8
  {
    if |patientId| <= 8 then patientId else patientId[..8]
  }

  const CreationDateTimeKey := "mirax.GENERAL.SLIDE_CREATIONDATETIME"
  const ObjectiveMagnificationKey := "mirax.GENERAL.OBJECTIVE_MAGNIFICATION"

  /** The KeyError `build_metadata` raises first: the creation time, the objective, then the patient. */
  function ExpectedKeyError(patientId: string, properties: Properties): Exception {
    if Lookup(properties, CreationDateTimeKey).Err? then KeyError(CreationDateTimeKey)
    else if Lookup(properties, ObjectiveMagnificationKey).Err? then KeyError(ObjectiveMagnificationKey)
    else KeyError(patientId)
  }

  /**
   * The string- and identifier-valued parts of the converter's metadata: equipment,
   * acquisition time (as the property's text), objective power, study, patient,
   * specimen and slide.
   */
  datatype Metadata = Metadata(
    manufacturer: string,
    modelName: Option<string>,
    softwareVersions: seq<Option<string>>,
    acquisitionDateTime: string,
    objectivePower: string,
    accessionNumber: string,
    patientId: string,
    gender: string,
    specimenId: string,
    sampleId: string,
    slideId: string)

  /**
   * `build_metadata` of the older conversion: the scanner versions are looked up by
   * suffix, the creation time and objective magnification by exact name, the gender
   * in the clinical table by patient; a missing name or patient raises KeyError in
   * that order. The accession number is the first eight characters of the patient id;
   * patient, specimen and sample all carry the patient id.
   */
  method BuildMetadata(slideId: string, patientId: string, properties: Properties, genders: map<string, string>)
    returns (r: Result<Metadata>)
    ensures r.Ok? <==> Lookup(properties, CreationDateTimeKey).Ok? && Lookup(properties, ObjectiveMagnificationKey).Ok?
                       && patientId in genders
    ensures r.Err? ==> r.error == ExpectedKeyError(patientId, properties)
    ensures r.Ok? ==>
      && r.value.manufacturer == "Mirax"
      && (r.value.modelName.None? <==>
            forall i :: 0 <= i < |properties| ==> !NameEndsWith(properties, i, "scanner_hardware_version"))
      && |r.value.softwareVersions| == 1
      && (r.value.softwareVersions[0].None? <==>
            forall i :: 0 <= i < |properties| ==> !NameEndsWith(properties, i, "scanner_software_version"))
      && r.value.acquisitionDateTime == Lookup(properties, CreationDateTimeKey).value
      && r.value.objectivePower == Lookup(properties, ObjectiveMagnificationKey).value
      && r.value.accessionNumber == AccessionNumber(patientId)
      && r.value.patientId == patientId && r.value.gender == genders[patientId]
      && r.value.specimenId == patientId && r.value.sampleId == patientId
      && r.value.slideId == slideId
  {
    var modelName := FindPropertyBySuffix(properties, "scanner_hardware_version");
    var softwareVersion := FindPropertyBySuffix(properties, "scanner_software_version");
    var created := Lookup(properties, CreationDateTimeKey);
    if created.Err? {
      return Err(created.error);
    }
    var objective := Lookup(properties, ObjectiveMagnificationKey);
    if objective.Err? {
      return Err(objective.error);
    }
    var accession := AccessionNumber(patientId);
    if patientId !in genders {
      return Err(KeyError(patientId));
    }
    r := Ok(Metadata("Mirax", modelName, [softwareVersion], created.value, objective.value, accession, patientId,
                     genders[patientId], patientId, patientId, slideId));
  }

  /**
   * `build_additional_metadata` of the older conversion: every element is added,
   * the admitting diagnoses description as given and the diagnosis code sequence
   * always, with coding scheme 'NCIt'.
   */
  method BuildAdditionalMetadata(
    patientAge: string, acquisitionDuration: real, diagnosisCode: string, diagnosisMeaning: string,
    admittingDiagnoses: string, coordinatingCenter: string, protocolName: string, sponsor: string)
    returns (ds: Dataset)
    ensures ds.Keys == {PatientAge, AcquisitionDuration, AdmittingDiagnosesDescription,
                        ClinicalTrialCoordinatingCenterName, ClinicalTrialProtocolName, ClinicalTrialSponsorName,
                        AdmittingDiagnosesCodeSequence}
    ensures ds[PatientAge] == Element("AS", Str(patientAge))
    ensures ds[AcquisitionDuration] == Element("FD", Float(acquisitionDuration))
    ensures ds[AdmittingDiagnosesDescription] == Element("LO", Str(admittingDiagnoses))
    ensures ds[ClinicalTrialCoordinatingCenterName] == Element("LO", Str(coordinatingCenter))
    ensures ds[ClinicalTrialProtocolName] == Element("LO", Str(protocolName))
    ensures ds[ClinicalTrialSponsorName] == Element("LO", Str(sponsor))
    ensures ds[AdmittingDiagnosesCodeSequence] ==
      Element("SQ", Items([DiagnosisCodeItem(diagnosisCode, Given(diagnosisMeaning))]))
    ensures ds[AdmittingDiagnosesCodeSequence].value.items[0].elements[CodingSchemeDesignator] == Element("SH", Str("NCIt"))
  {
    ds := map[];
    ds := ds[PatientAge := Element("AS", Str(patientAge))];
    ds := ds[AcquisitionDuration := Element("FD", Float(acquisitionDuration))];
    ds := ds[AdmittingDiagnosesDescription := Element("LO", Str(admittingDiagnoses))];
    ds := ds[ClinicalTrialCoordinatingCenterName := Element("LO", Str(coordinatingCenter))];
    ds := ds[ClinicalTrialProtocolName := Element("LO", Str(protocolName))];
    ds := ds[ClinicalTrialSponsorName := Element("LO", Str(sponsor))];
    var item: Dataset := map[];
    item := item[CodeValue := Element("SH", Str(diagnosisCode))];
    item := item[CodingSchemeDesignator := Element("SH", Str("NCIt"))];
    item := item[CodeMeaning := Element("LO", Str(diagnosisMeaning))];
    ds := ds[AdmittingDiagnosesCodeSequence := Element("SQ", Items([Item(item)]))];
  }
}
