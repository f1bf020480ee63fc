// Page navigation of the textbook viewer
// (client/src/components/textbook/PdfViewer.tsx): the current page and the
// page count are component state that guarded handlers change, each of
// which may report a reading progress (a whole percentage) to the page that
// hosts the viewer. The page count is not read from the document: once the
// simulated load finishes it is fixed at ten.
//
// The source divides floating-point numbers and rounds with `Math.floor` and
// `Math.ceil`; here the same quotients are computed exactly on integers.
module PdfViewing {
  import opened Wrappers
  import opened Schema
  import opened Utils

  /** The page count the viewer assumes once loading has finished. */
  const DemoPageCount := 10

  /** The document shown when the material has no file path. */
  const PlaceholderPdf := "https://www.w3.org/WAI/ER/tests/xhtml/testfiles/resources/pdf/dummy.pdf"

  /** The least integer at or above a / b, for a positive b. */
  function CeilDiv(a: int, b: int): (r: int)
    requires b > 0
    ensures (r - 1) * b < a <= r * b
  {
    var q := (-a) / b;
    assert b * q <= -a < b * q + b;
    -q
  }

  /** `Math.floor((page / totalPages) * 100)`: the percentage a page stands for. */
  function ProgressOfPage(page: int, totalPages: int): (r: int)
    requires totalPages > 0
    ensures r * totalPages <= page * 100 < (r + 1) * totalPages
  {
    var r := (page * 100) / totalPages;
    assert totalPages * r <= page * 100 < totalPages * r + totalPages;
    r
  }

  /** `Math.ceil((progress / 100) * totalPages)`: the page a percentage points into. */
  function PageOfProgress(progress: int, totalPages: int): (r: int)
    ensures (r - 1) * 100 < progress * totalPages <= r * 100
  {
    CeilDiv(progress * totalPages, 100)
  }

  /** The page a material's non-zero saved progress opens at: `estimatedPage || 1`. */
  function ResumePage(progress: int): (r: int)
    ensures r != 0
    ensures PageOfProgress(progress, DemoPageCount) != 0 ==> r == PageOfProgress(progress, DemoPageCount)
  {
    var estimated := PageOfProgress(progress, DemoPageCount);
    if estimated == 0 then 1 else estimated
  }

  /** Going forward from a page in range reports a percentage in (0, 100], 100 exactly on the last page. */
  lemma ProgressOfPageBounds(page: int, totalPages: int)
    requires 1 <= page <= totalPages <= 100
    ensures 0 < ProgressOfPage(page, totalPages) <= 100
    ensures ProgressOfPage(page, totalPages) == 100 <==> page == totalPages
  {
    var r := ProgressOfPage(page, totalPages);
    MulLess(r, 101, totalPages);
    MulLess(0, r + 1, totalPages);
    if page == totalPages {
      MulLess(99, r, totalPages);
    } else {
      MulLess(r, 100, totalPages);
    }
  }

  /** A percentage in [0, 100] points to a page in [0, totalPages]; only 0% points to page 0. */
  lemma PageOfProgressBounds(progress: int, totalPages: int)
    requires 0 <= progress <= 100 && totalPages > 0
    ensures 0 <= PageOfProgress(progress, totalPages) <= totalPages
    ensures PageOfProgress(progress, totalPages) == 0 <==> progress == 0
    ensures progress == 100 ==> PageOfProgress(progress, totalPages) == totalPages
  {
    MulMono(0, progress, totalPages);
    MulMono(progress, 100, totalPages);
    if progress > 0 {
      MulMono(1, progress, totalPages);
    }
  }

  /** The page a reported percentage points into is the page that reported it. */
  lemma PageProgressRoundTrip(page: int, totalPages: int)
    requires 1 <= page <= totalPages <= 100
    ensures PageOfProgress(ProgressOfPage(page, totalPages), totalPages) == page
  {
    var p := ProgressOfPage(page, totalPages);
    var r := PageOfProgress(p, totalPages);
    // r * 100 >= p * totalPages > page * 100 - totalPages >= (page - 1) * 100
    assert (page - 1) * 100 < p * totalPages;
    MulLess(page - 1, r, 100);
    // (r - 1) * 100 < p * totalPages <= page * 100
    MulLess(r - 1, page, 100);
  }

  /** A material saved at the progress of a page reopens at that page. */
  lemma ResumeAtSavedPage(page: int)
    requires 1 <= page <= DemoPageCount
    ensures ProgressOfPage(page, DemoPageCount) != 0
    ensures ResumePage(ProgressOfPage(page, DemoPageCount)) == page
  {
    ProgressOfPageBounds(page, DemoPageCount);
    PageProgressRoundTrip(page, DemoPageCount);
  }

  class PdfViewer {
    var currentPage: int
    var totalPages: int
    var isLoading: bool
    var pdfUrl: string

    constructor ()
      ensures currentPage == 1 && totalPages == 0 && isLoading && pdfUrl == ""
    {
      currentPage := 1;
      totalPages := 0;
      isLoading := true;
      pdfUrl := "";
    }

    /** The page shown is one of the document's pages. */
    predicate PageInRange()
      reads this
    {
      1 <= currentPage <= totalPages
    }

    /**
     * The effect on a new material: its file (or the placeholder) is shown
     * and a non-zero saved progress picks the page; with no material nothing
     * changes.
     */
    method OpenMaterial(material: Option<StudyMaterial>)
      modifies this`currentPage, this`pdfUrl
      ensures material.None? ==> currentPage == old(currentPage) && pdfUrl == old(pdfUrl)
      ensures material.Some? ==>
                pdfUrl == (if material.value.filePath != "" then material.value.filePath else PlaceholderPdf)
      ensures material.Some? && material.value.progress != 0 ==> currentPage == ResumePage(material.value.progress)
      ensures material.Some? && material.value.progress == 0 ==> currentPage == old(currentPage)
    {
      if material.Some? {
        pdfUrl := if material.value.filePath != "" then material.value.filePath else PlaceholderPdf;
        if material.value.progress != 0 {
          currentPage := ResumePage(material.value.progress);
        }
      }
    }

    /** The end of the simulated load: the page count becomes known. */
    method FinishLoading()
      modifies this`isLoading, this`totalPages
      ensures !isLoading && totalPages == DemoPageCount
    {
      isLoading := false;
      totalPages := DemoPageCount;
    }

    /**
     * `handleNextPage`: below the last page, go one page on and report the
     * new page's percentage; otherwise (in particular while the page count
     * is still 0) nothing happens.
     */
    method HandleNextPage() returns (report: Option<int>)
      modifies this`currentPage
      ensures old(currentPage) >= totalPages ==> currentPage == old(currentPage) && report.None?
      ensures old(currentPage) < totalPages ==> currentPage == old(currentPage) + 1
      ensures old(currentPage) < totalPages && totalPages > 0 ==>
                report == Some(ProgressOfPage(currentPage, totalPages))
      ensures old(PageInRange()) ==> PageInRange()
      ensures report.Some? && old(currentPage) >= 0 && totalPages <= 100 ==>
                0 < report.value <= 100 && (report.value == 100 <==> currentPage == totalPages)
    {
      report := None;
      if currentPage < totalPages {
        var newPage := currentPage + 1;
        currentPage := newPage;
        if totalPages > 0 {
          report := Some(ProgressOfPage(newPage, totalPages));
          if newPage >= 1 && totalPages <= 100 {
            ProgressOfPageBounds(newPage, totalPages);
          }
        }
      }
    }

    /** `handlePrevPage`: above the first page, go one page back; no progress is reported. */
    method HandlePrevPage()
      modifies this`currentPage
      ensures old(currentPage) > 1 ==> currentPage == old(currentPage) - 1
      ensures old(currentPage) <= 1 ==> currentPage == old(currentPage)
      ensures old(PageInRange()) ==> PageInRange()
    {
      if currentPage > 1 {
        currentPage := currentPage - 1;
      }
    }

    /**
     * `handleProgressChange`: the slider's percentage picks the page it
     * points into, unclamped (0% gives page 0), and is reported unchanged.
     */
    method HandleProgressChange(progress: int) returns (report: int)
      modifies this`currentPage
      ensures currentPage == PageOfProgress(progress, totalPages) && report == progress
      ensures 0 <= progress <= 100 && totalPages > 0 ==>
                0 <= currentPage <= totalPages && (currentPage == 0 <==> progress == 0)
    {
      currentPage := PageOfProgress(progress, totalPages);
      report := progress;
      if 0 <= progress <= 100 && totalPages > 0 {
        PageOfProgressBounds(progress, totalPages);
      }
    }
  }
}
