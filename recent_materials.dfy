// The dashboard's recent-materials card
// (client/src/components/dashboard/RecentMaterialsWidget.tsx): the colour
// band of a material's progress, the label of when it was last viewed, the
// first three materials it lists, and the upload handler, which checks the
// chosen file's type and size before it uploads and tracks the upload in
// component state.
module RecentMaterials {
  import opened Wrappers
  import opened Schema

  // ---------------------------------------------------------------------------
  // getProgressColorClass

  /** The three progress bands, from least to most complete. */
  datatype Band = Warning | Primary | Secondary
  {
    /** The Tailwind classes the band is drawn with. */
    function ClassName(): string {
      match this
      case Secondary => "bg-secondary/10 text-secondary"
      case Primary => "bg-primary/10 text-primary"
      case Warning => "bg-warning/10 text-warning"
    }

    function Rank(): nat {
      match this
      case Warning => 0
      case Primary => 1
      case Secondary => 2
    }
  }

  /** `getProgressColorClass`, as the band it picks: 75 and up, 40 up to 75, below 40. */
  function ProgressBand(progress: int): (b: Band)
    ensures b == Secondary <==> progress >= 75
    ensures b == Primary <==> 40 <= progress < 75
    ensures b == Warning <==> progress < 40
  {
    if progress >= 75 then Secondary
    else if progress >= 40 then Primary
    else Warning
  }

  /** More progress never shows a lower band. */
  lemma ProgressBandMonotone(a: int, b: int)
    requires a <= b
    ensures ProgressBand(a).Rank() <= ProgressBand(b).Rank()
  {
  }

  /** Different bands are drawn differently. */
  lemma ClassNamesDistinct(a: Band, b: Band)
    requires a != b
    ensures a.ClassName() != b.ClassName()
  {
    assert a.ClassName()[3] != b.ClassName()[3];
  }

  // ---------------------------------------------------------------------------
  // formatLastViewed and the listing

  const NeverViewed := "Never viewed"

  /**
   * `formatLastViewed`: a missing or empty timestamp reads "Never viewed";
   * any other is put into words by `describe`, which stands for the date
   * formatting the function does with the current time.
   */
  function FormatLastViewed(lastViewed: Option<string>, describe: string -> string): (r: string)
    ensures lastViewed.None? || lastViewed.value == "" ==> r == NeverViewed
    ensures lastViewed.Some? && lastViewed.value != "" ==> r == describe(lastViewed.value)
  {
    if lastViewed.None? || lastViewed.value == "" then NeverViewed else describe(lastViewed.value)
  }

  /** `materials?.slice(0, 3)`: the first three materials, or all when fewer; none before they load. */
  function ShownMaterials(materials: Option<seq<StudyMaterial>>): (r: seq<StudyMaterial>)
    ensures materials.None? ==> r == []
    ensures materials.Some? ==> r <= materials.value
    ensures |r| <= 3
    ensures materials.Some? && |materials.value| >= 3 ==> |r| == 3
    ensures materials.Some? && |materials.value| <= 3 ==> r == materials.value
  {
    if materials.None? then []
    else if |materials.value| <= 3 then materials.value
    else materials.value[..3]
  }

  // ---------------------------------------------------------------------------
  // handleFileUpload

  const PdfMimeType := "application/pdf"

  /** 25 MiB, the largest file the widget uploads. */
  const MaxUploadBytes := 25 * 1024 * 1024

  /** What the browser reports of the chosen file. */
  datatype FileInfo = FileInfo(mimeType: string, size: int)

  /** The guards of `handleFileUpload`, in their order. */
  datatype UploadCheck = NoFile | InvalidType | TooLarge | Accepted

  function CheckUpload(file: Option<FileInfo>): (c: UploadCheck)
    ensures c == NoFile <==> file.None?
    ensures c == InvalidType <==> file.Some? && file.value.mimeType != PdfMimeType
    ensures c == TooLarge <==> file.Some? && file.value.mimeType == PdfMimeType && file.value.size > MaxUploadBytes
    ensures c == Accepted <==> file.Some? && file.value.mimeType == PdfMimeType && file.value.size <= MaxUploadBytes
  {
    if file.None? then NoFile
    else if file.value.mimeType != PdfMimeType then InvalidType
    else if file.value.size > MaxUploadBytes then TooLarge
    else Accepted
  }

  /** A PDF of exactly 25 MiB is accepted and one byte more is refused; a non-PDF is refused whatever its size. */
  lemma UploadSizeLimit(mimeType: string, size: int)
    ensures CheckUpload(Some(FileInfo(PdfMimeType, MaxUploadBytes))) == Accepted
    ensures CheckUpload(Some(FileInfo(PdfMimeType, MaxUploadBytes + 1))) == TooLarge
    ensures mimeType != PdfMimeType ==> CheckUpload(Some(FileInfo(mimeType, size))) == InvalidType
  {
  }

  /** The notice the handler shows. */
  datatype UploadNotice = InvalidFileType | FileTooLarge | UploadSucceeded | UploadFailed

  /** The progress bar after the given progress reports: the last one, or 0 before any. */
  function LastReport(reports: seq<int>): int {
    if reports == [] then 0 else reports[|reports| - 1]
  }

  class RecentMaterialsWidget {
    var isUploading: bool
    var uploadProgress: int
    var uploadDialogOpen: bool

    constructor ()
      ensures !isUploading && uploadProgress == 0 && !uploadDialogOpen
    {
      isUploading := false;
      uploadProgress := 0;
      uploadDialogOpen := false;
    }

    /** The user opens or closes the upload dialog. */
    method SetDialogOpen(open: bool)
      modifies this`uploadDialogOpen
      ensures uploadDialogOpen == open
    {
      uploadDialogOpen := open;
    }

    /**
     * `handleFileUpload`. `reports` are the percentages the upload reports
     * as it goes and `succeeded` its outcome. A refused file changes no state
     * and is not uploaded; an accepted one is, after which the widget is no
     * longer uploading, shows the last reported percentage and, on success,
     * closes the dialog.
     */
    method HandleFileUpload(file: Option<FileInfo>, reports: seq<int>, succeeded: bool)
      returns (uploaded: bool, notice: Option<UploadNotice>)
      modifies this
      ensures uploaded <==> CheckUpload(file) == Accepted
      ensures CheckUpload(file) == NoFile ==> notice.None?
      ensures CheckUpload(file) == InvalidType ==> notice == Some(InvalidFileType)
      ensures CheckUpload(file) == TooLarge ==> notice == Some(FileTooLarge)
      ensures !uploaded ==>
                isUploading == old(isUploading) && uploadProgress == old(uploadProgress)
                && uploadDialogOpen == old(uploadDialogOpen)
      ensures uploaded ==> !isUploading && uploadProgress == LastReport(reports)
      ensures uploaded && succeeded ==> notice == Some(UploadSucceeded) && !uploadDialogOpen
      ensures uploaded && !succeeded ==> notice == Some(UploadFailed) && uploadDialogOpen == old(uploadDialogOpen)
    {
      var check := CheckUpload(file);
      if check == NoFile {
        return false, None;
      } else if check == InvalidType {
        return false, Some(InvalidFileType);
      } else if check == TooLarge {
        return false, Some(FileTooLarge);
      }
      isUploading := true;
      uploadProgress := 0;
      for i := 0 to |reports|
        invariant uploadProgress == LastReport(reports[..i])
        invariant uploadDialogOpen == old(uploadDialogOpen)
      {
        uploadProgress := reports[i];
        assert reports[..i + 1][i] == reports[i];
      }
      assert reports[..|reports|] == reports;
      if succeeded {
        notice := Some(UploadSucceeded);
        uploadDialogOpen := false;
      } else {
        notice := Some(UploadFailed);
      }
      isUploading := false;
      uploaded := true;
    }
  }
}
