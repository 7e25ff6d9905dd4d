/**
 * Page navigation of the PDF viewer: the current page number, the text of the page
 * input box and the page count reported by the loaded document. The previous and next
 * buttons clamp the page, the thumbnails jump to a page, and submitting the input box
 * accepts the typed number only when it names a page of the document.
 */
module PdfViewer {
  import opened Wrappers
  import opened JsStrings

  /** The navigation state: page count, current page and the page input's text. */
  datatype ViewerState = ViewerState(numPages: nat, pageNumber: int, pageInput: string)

  /** The state before the document reports its page count. */
  const InitialState := ViewerState(0, 1, "1")

  /** The current page is a page of the document. */
  predicate InRange(s: ViewerState) {
    1 <= s.pageNumber <= s.numPages
  }

  /** The input box reads back as the current page. */
  predicate InputShowsPage(s: ViewerState) {
    ParseInt(s.pageInput) == Some(s.pageNumber)
  }

  /** The page set to `newPage` and `newPage.toString()` put in the input box, as the
      buttons and `goToPage` do. */
  function ShowPage(s: ViewerState, newPage: int): (r: ViewerState)
    ensures r.numPages == s.numPages && r.pageNumber == newPage
    ensures r.pageInput == IntToString(newPage)
    ensures InputShowsPage(r)
  {
    ParseIntToString(newPage);
    s.(pageNumber := newPage, pageInput := IntToString(newPage))
  }

  /** `onDocumentLoadSuccess`: the document reports its page count. */
  function DocumentLoaded(s: ViewerState, numPages: nat): (r: ViewerState)
    ensures r.numPages == numPages && r.pageNumber == s.pageNumber && r.pageInput == s.pageInput
  {
    s.(numPages := numPages)
  }

  /** `goToPrevPage`: one page back, never below page 1. */
  function PrevPage(s: ViewerState): (r: ViewerState)
    ensures r.numPages == s.numPages && InputShowsPage(r)
    ensures r.pageInput == IntToString(r.pageNumber)
    ensures s.pageNumber > 1 ==> r.pageNumber == s.pageNumber - 1
    ensures s.pageNumber <= 1 ==> r.pageNumber == 1
    ensures InRange(s) ==> InRange(r)
  {
    ShowPage(s, if s.pageNumber - 1 > 1 then s.pageNumber - 1 else 1)
  }

  /** `goToNextPage`: one page on, never beyond the page count. */
  function NextPage(s: ViewerState): (r: ViewerState)
    ensures r.numPages == s.numPages && InputShowsPage(r)
    ensures r.pageInput == IntToString(r.pageNumber)
    ensures s.pageNumber < s.numPages ==> r.pageNumber == s.pageNumber + 1
    ensures s.pageNumber >= s.numPages ==> r.pageNumber == s.numPages
    ensures InRange(s) ==> InRange(r)
  {
    ShowPage(s, if s.pageNumber + 1 < s.numPages then s.pageNumber + 1 else s.numPages)
  }

  /** The page the input box names, when it names a page of the document; `parseInt`
      giving NaN fails both comparisons. */
  function RequestedPage(s: ViewerState): (p: Option<int>)
    ensures p.Some? <==> ParseInt(s.pageInput).Some? && 1 <= ParseInt(s.pageInput).value <= s.numPages
    ensures p.Some? ==> p == ParseInt(s.pageInput)
  {
    var page := ParseInt(s.pageInput);
    if page.Some? && 1 <= page.value && page.value <= s.numPages then page else None
  }

  /** `handlePageInputSubmit`: a page of the document becomes the current page and the
      text stays as typed; anything else leaves the page and puts it back in the box. */
  function SubmitPageInput(s: ViewerState): (r: ViewerState)
    ensures r.numPages == s.numPages && InputShowsPage(r)
    ensures RequestedPage(s).Some? ==> r.pageNumber == RequestedPage(s).value && r.pageInput == s.pageInput
    ensures RequestedPage(s).None? ==> r.pageNumber == s.pageNumber
    ensures RequestedPage(s).None? ==> r.pageInput == IntToString(s.pageNumber)
    ensures InRange(s) ==> InRange(r)
  {
    match RequestedPage(s)
    case Some(page) => s.(pageNumber := page)
    case None => ShowPage(s, s.pageNumber)
  }

  /** Submitting the box right after a navigation changes nothing: the box already holds
      the current page. */
  lemma SubmitShownPage(s: ViewerState)
    requires InRange(s) && InputShowsPage(s)
    ensures SubmitPageInput(s) == s
  {
    assert RequestedPage(s) == Some(s.pageNumber);
  }

  /** Submitting twice is submitting once. */
  lemma SubmitIdempotent(s: ViewerState)
    ensures SubmitPageInput(SubmitPageInput(s)) == SubmitPageInput(s)
  {
    var r := SubmitPageInput(s);
    if RequestedPage(r).Some? {
      assert RequestedPage(r) == Some(r.pageNumber);
    } else {
      assert SubmitPageInput(r) == ShowPage(r, r.pageNumber);
      assert r.pageInput == IntToString(r.pageNumber) by {
        if RequestedPage(s).Some? {
          assert false;
        }
      }
    }
  }

  /** Next then previous comes back to the page, except on the last page. */
  lemma NextThenPrev(s: ViewerState)
    requires InRange(s) && s.pageNumber < s.numPages
    ensures PrevPage(NextPage(s)).pageNumber == s.pageNumber
  {
  }

  /** Previous then next comes back to the page, except on the first page. */
  lemma PrevThenNext(s: ViewerState)
    requires InRange(s) && s.pageNumber > 1
    ensures NextPage(PrevPage(s)).pageNumber == s.pageNumber
  {
  }

  /** Every thumbnail (`index + 1` for `index` below the page count) jumps to a page of
      the document. */
  lemma ThumbnailsStayInRange(s: ViewerState, index: nat)
    requires index < s.numPages
    ensures InRange(ShowPage(s, index + 1))
  {
  }

  /** The viewer component's navigation state. */
  class PdfNavigator {
    var numPages: nat
    var pageNumber: int
    var pageInput: string

    /** The three fields as one value. */
    function State(): ViewerState
      reads this
    {
      ViewerState(numPages, pageNumber, pageInput)
    }

    /** `useState(0)`, `useState(1)`, `useState('1')` */
    constructor ()
      ensures State() == InitialState
    {
      numPages := 0;
      pageNumber := 1;
      pageInput := "1";
    }

    /** `onDocumentLoadSuccess` */
    method OnDocumentLoadSuccess(n: nat)
      modifies this
      ensures State() == DocumentLoaded(old(State()), n)
    {
      numPages := n;
    }

    /** `handlePageInputChange`: the box holds what was typed. */
    method HandlePageInputChange(text: string)
      modifies this
      ensures State() == old(State()).(pageInput := text)
    {
      pageInput := text;
    }

    /** `goToPrevPage` */
    method GoToPrevPage()
      modifies this
      ensures State() == PrevPage(old(State()))
      ensures old(InRange(State())) ==> InRange(State())
    {
      ghost var s := State();
      var newPage := if pageNumber - 1 > 1 then pageNumber - 1 else 1;
      pageNumber := newPage;
      pageInput := IntToString(newPage);
      assert State() == ShowPage(s, newPage);
    }

    /** `goToNextPage` */
    method GoToNextPage()
      modifies this
      ensures State() == NextPage(old(State()))
      ensures old(InRange(State())) ==> InRange(State())
    {
      ghost var s := State();
      var newPage := if pageNumber + 1 < numPages then pageNumber + 1 else numPages;
      pageNumber := newPage;
      pageInput := IntToString(newPage);
      assert State() == ShowPage(s, newPage);
    }

    /** `handlePageInputSubmit` */
    method HandlePageInputSubmit()
      modifies this
      ensures State() == SubmitPageInput(old(State()))
      ensures old(InRange(State())) ==> InRange(State())
    {
      var page := ParseInt(pageInput);
      if page.Some? && 1 <= page.value && page.value <= numPages {
        pageNumber := page.value;
      } else {
        pageInput := IntToString(pageNumber);
      }
    }

    /** `goToPage` */
    method GoToPage(page: int)
      modifies this
      ensures State() == ShowPage(old(State()), page)
    {
      pageNumber := page;
      pageInput := IntToString(page);
    }
  }
}
