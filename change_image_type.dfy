/**
 * The ImageType fix-up script: a converted image whose Image Type reads
 * ORIGINAL ... RESAMPLED is marked DERIVED in its first value and written back;
 * any other image is left alone and not written.
 */
module ChangeImageType {
  import opened Wrappers

  const Original := "ORIGINAL"
  const Resampled := "RESAMPLED"
  const Derived := "DERIVED"

  /** Indexing past the values of a multi-valued element. */
  const ListIndexOutOfRange := IndexError("list index out of range")
  /** Indexing the empty string pydicom gives for an element without values. */
  const StringIndexOutOfRange := IndexError("string index out of range")

  /**
   * The check and the patch on the values of Image Type: `None` when the script
   * leaves the file alone, the new values when it rewrites them. pydicom gives a
   * single value as a string, whose first character never equals 'ORIGINAL', and no
   * values as the empty string; `ImageType[3]` is only read once the first value
   * matched.
   */
  function PatchImageType(imageType: seq<string>): (r: Result<Option<seq<string>>>)
    ensures r.Err? <==> |imageType| == 0 || (2 <= |imageType| < 4 && imageType[0] == Original)
    ensures r.Err? ==> r.error == (if |imageType| == 0 then StringIndexOutOfRange else ListIndexOutOfRange)
    ensures r.Ok? && r.value.Some? <==> |imageType| >= 4 && imageType[0] == Original && imageType[3] == Resampled
    ensures r.Ok? && r.value.Some? ==>
      && |r.value.value| == |imageType|
      && r.value.value[0] == Derived
      && forall k :: 1 <= k < |imageType| ==> r.value.value[k] == imageType[k]
  {
    if |imageType| == 0 then Err(StringIndexOutOfRange)
    else if |imageType| == 1 then Ok(None)
    else if imageType[0] != Original then Ok(None)
    else if |imageType| < 4 then Err(ListIndexOutOfRange)
    else if imageType[3] != Resampled then Ok(None)
    else Ok(Some(imageType[0 := Derived]))
  }

  /** Patching is idempotent: a patched Image Type no longer matches, so a second run changes nothing. */
  lemma PatchIdempotent(imageType: seq<string>)
    requires PatchImageType(imageType).Ok? && PatchImageType(imageType).value.Some?
    ensures PatchImageType(PatchImageType(imageType).value.value) == Ok(None)
  {
    var patched := PatchImageType(imageType).value.value;
    assert patched[0] == Derived != Original;
  }

  /** A DICOM file read into memory: the Image Type of the dataset and the one stored on disk. */
  class DicomFile {
    /** `ds.ImageType` of the dataset read. */
    var imageType: seq<string>
    /** The Image Type the file on disk holds. */
    var stored: seq<string>
    /** How many times the dataset was saved over the file. */
    var saves: nat

    /** `pydicom.dcmread`: the dataset holds what the file holds. */
    constructor Read(onDisk: seq<string>)
      ensures imageType == onDisk && stored == onDisk && saves == 0
    {
      imageType := onDisk;
      stored := onDisk;
      saves := 0;
    }

    /**
     * The script's body: the first value set to DERIVED in place and the file
     * saved, only when the image reads ORIGINAL ... RESAMPLED.
     */
    method ChangeImageType() returns (error: Option<Exception>)
      modifies this
      ensures PatchImageType(old(imageType)).Err? ==>
        error == Some(PatchImageType(old(imageType)).error) && unchanged(this)
      ensures PatchImageType(old(imageType)) == Ok(None) ==> error.None? && unchanged(this)
      ensures PatchImageType(old(imageType)).Ok? && PatchImageType(old(imageType)).value.Some? ==>
        && error.None?
        && imageType == PatchImageType(old(imageType)).value.value
        && stored == imageType
        && saves == old(saves) + 1
    {
      if |imageType| == 0 {
        return Some(StringIndexOutOfRange);
      }
      if |imageType| == 1 || imageType[0] != Original {
        return None;
      }
      if |imageType| < 4 {
        return Some(ListIndexOutOfRange);
      }
      if imageType[3] == Resampled {
        imageType := imageType[0 := Derived];
        stored := imageType;
        saves := saves + 1;
      }
      return None;
    }
  }
}
