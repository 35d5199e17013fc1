// The document manager: the PDF picker's checks, the simulated upload
// progress, and the client-side search and paging of the stored files.
module Documents {
  import opened Wrappers
  import opened Strings
  import Pagination

  const PDF_TYPE := "application/pdf"
  /** 10 MB */
  const MAX_SIZE: nat := 10 * 1024 * 1024
  const PAGE_SIZE: nat := 10

  const NOT_PDF_ALERT := "Please select a PDF file only."
  const TOO_LARGE_ALERT := "File size must be less than 10MB."
  const NO_FILE_ALERT := "Please select a file to upload."

  /** A file picked in the browser: its name, MIME type and size in bytes. */
  datatype LocalFile = LocalFile(name: string, mimeType: string, size: nat)

  /** A document listed by the server. */
  datatype StoredFile = StoredFile(name: string, size: nat, lastModified: string)

  /** The alert that rejects a picked file; `None` when the file is kept. The type is checked first. */
  function SelectionAlert(file: LocalFile): (r: Option<string>)
    ensures r.None? <==> file.mimeType == PDF_TYPE && file.size <= MAX_SIZE
    ensures r == Some(NOT_PDF_ALERT) <==> file.mimeType != PDF_TYPE
  {
    if file.mimeType != PDF_TYPE then Some(NOT_PDF_ALERT)
    else if file.size > MAX_SIZE then Some(TOO_LARGE_ALERT)
    else None
  }

  /** The search keeps a file whose name contains the term, ignoring case. */
  predicate Matches(file: StoredFile, term: string) {
    Contains(Lower(file.name), Lower(term))
  }

  /**
   * The filter under the search box: an empty term keeps every file, any
   * other term (not trimmed) the matching files in their order.
   */
  function FilterFiles(files: seq<StoredFile>, term: string): (r: seq<StoredFile>)
    ensures |r| <= |files|
    ensures term == "" ==> r == files
    ensures forall f :: f in r <==> f in files && (term == "" || Matches(f, term))
  {
    if term == "" || files == [] then files
    else
      var rest := FilterFiles(files[1..], term);
      assert files == [files[0]] + files[1..];
      if Matches(files[0], term) then [files[0]] + rest else rest
  }

  /** Filtering a concatenation filters each part, so the kept files stay in their order. */
  lemma {:induction false} FilterFilesAppend(a: seq<StoredFile>, b: seq<StoredFile>, term: string)
    ensures FilterFiles(a + b, term) == FilterFiles(a, term) + FilterFiles(b, term)
  {
    if a == [] {
      assert a + b == b;
    } else {
      var k := FilterFiles([a[0]], term);
      assert a + b == [a[0]] + (a[1..] + b);
      assert a == [a[0]] + a[1..];
      calc {
        FilterFiles(a + b, term);
        { FilterFilesCons(a[0], a[1..] + b, term); }
        k + FilterFiles(a[1..] + b, term);
        { FilterFilesAppend(a[1..], b, term); }
        k + (FilterFiles(a[1..], term) + FilterFiles(b, term));
        (k + FilterFiles(a[1..], term)) + FilterFiles(b, term);
        { FilterFilesCons(a[0], a[1..], term); }
        FilterFiles(a, term) + FilterFiles(b, term);
      }
    }
  }

  /** The first file is filtered on its own, and the rest after it. */
  lemma FilterFilesCons(f: StoredFile, rest: seq<StoredFile>, term: string)
    ensures FilterFiles([f] + rest, term) == FilterFiles([f], term) + FilterFiles(rest, term)
  {
    if term != "" {
      var l := [f] + rest;
      assert l[0] == f && l[1..] == rest;
      assert [f][1..] == [];
      if Matches(f, term) {
        assert FilterFiles([f], term) == [f];
        assert FilterFiles(l, term) == [f] + FilterFiles(rest, term);
      } else {
        assert FilterFiles([f], term) == [];
        assert FilterFiles(l, term) == FilterFiles(rest, term);
      }
    }
  }

  /** One file is kept exactly when the term is empty or matches it. */
  lemma FilterFilesOne(f: StoredFile, term: string)
    ensures FilterFiles([f], term) == if term == "" || Matches(f, term) then [f] else []
  {
    assert [f][1..] == [];
  }

  /** The term matching every name keeps the whole list, in order. */
  lemma {:induction false} FilterKeepsAllMatching(files: seq<StoredFile>, term: string)
    requires forall f :: f in files ==> Matches(f, term)
    ensures FilterFiles(files, term) == files
  {
    if term != "" && files != [] {
      FilterKeepsAllMatching(files[1..], term);
    }
  }

  /** `Math.ceil(filtered.length / 10)` */
  function TotalPages(filtered: seq<StoredFile>): nat {
    Pagination.PageCount(|filtered|, PAGE_SIZE)
  }

  /** `filtered.slice((page - 1) * 10, page * 10)`: the page's files. */
  function VisibleFiles(filtered: seq<StoredFile>, page: int): (r: seq<StoredFile>)
    requires page >= 1
    ensures |r| <= PAGE_SIZE
    ensures |r| == Pagination.Max(0, Pagination.Min(PAGE_SIZE, |filtered| - (page - 1) * PAGE_SIZE))
    ensures forall k :: 0 <= k < |r| ==> r[k] == filtered[(page - 1) * PAGE_SIZE + k]
  {
    var start := (page - 1) * PAGE_SIZE;
    if start >= |filtered| then []
    else filtered[start..Pagination.Min(start + PAGE_SIZE, |filtered|)]
  }

  /** Every filtered file appears exactly once in the paging: item `i` is item `i % 10` of page `i / 10 + 1`. */
  lemma FileOnItsPage(filtered: seq<StoredFile>, i: int)
    requires 0 <= i < |filtered|
    ensures i / PAGE_SIZE + 1 <= TotalPages(filtered)
    ensures i % PAGE_SIZE < |VisibleFiles(filtered, i / PAGE_SIZE + 1)|
    ensures VisibleFiles(filtered, i / PAGE_SIZE + 1)[i % PAGE_SIZE] == filtered[i]
  {
    var p := i / PAGE_SIZE + 1;
    assert (p - 1) * PAGE_SIZE + i % PAGE_SIZE == i;
    var n := TotalPages(filtered);
    assert (n - 1) * PAGE_SIZE < |filtered| <= n * PAGE_SIZE;
    assert (p - 1) * PAGE_SIZE <= i < n * PAGE_SIZE;
  }

  /** A page shows files exactly when it is one of the `totalPages` pages. */
  lemma VisibleIffInRange(filtered: seq<StoredFile>, page: int)
    requires page >= 1
    ensures VisibleFiles(filtered, page) != [] <==> page <= TotalPages(filtered)
  {
    var n := TotalPages(filtered);
    assert (n - 1) * PAGE_SIZE < |filtered| <= n * PAGE_SIZE;
    if page <= n {
      assert (page - 1) * PAGE_SIZE <= (n - 1) * PAGE_SIZE;
    } else {
      assert (page - 1) * PAGE_SIZE >= n * PAGE_SIZE;
    }
  }

  /** The progress after `ticks` firings of the 200 ms timer: up by 10 each time until it reaches 90. */
  function ProgressAfter(ticks: nat): (r: nat)
    ensures r <= 90 && r % 10 == 0
    ensures ticks <= 9 ==> r == 10 * ticks
    ensures ticks >= 9 ==> r == 90
  {
    10 * Pagination.Min(ticks, 9)
  }

  /** What the upload request ended with. */
  datatype UploadOutcome = Uploaded | UploadFailed

  /** The document manager's state. */
  class DocumentPanel {
    var showUploadForm: bool
    var selectedFile: Option<LocalFile>
    var uploadProgress: nat
    var currentPage: int
    var searchTerm: string
    var isSearching: bool
    /** The server's list, `filesData.files` (empty until it arrives). */
    var allFiles: seq<StoredFile>
    /** Every file sent to the server, in order. */
    var uploads: seq<LocalFile>

    /** The page never drops below 1. */
    predicate Valid()
      reads this
    {
      currentPage >= 1
    }

    constructor ()
      ensures Valid()
      ensures !showUploadForm && selectedFile.None? && uploadProgress == 0 && currentPage == 1
      ensures searchTerm == "" && !isSearching && allFiles == [] && uploads == []
    {
      showUploadForm, selectedFile, uploadProgress, currentPage := false, None, 0, 1;
      searchTerm, isSearching, allFiles, uploads := "", false, [], [];
    }

    /** The files the search keeps. */
    function Filtered(): seq<StoredFile>
      reads this
    {
      FilterFiles(allFiles, searchTerm)
    }

    /** The rows of the table. */
    function Shown(): (r: seq<StoredFile>)
      reads this
      requires Valid()
      ensures |r| <= PAGE_SIZE
    {
      VisibleFiles(Filtered(), currentPage)
    }

    /** The server's list arrives. */
    method FilesLoaded(files: seq<StoredFile>)
      modifies this`allFiles
      ensures allFiles == files
    {
      allFiles := files;
    }

    /** `handleFileSelect`: a PDF of at most 10 MB becomes the selection; anything else raises an alert and changes nothing. */
    method HandleFileSelect(file: Option<LocalFile>) returns (alert: Option<string>)
      modifies this`selectedFile
      ensures file.None? ==> alert.None? && selectedFile == old(selectedFile)
      ensures file.Some? ==> alert == SelectionAlert(file.value)
      ensures file.Some? && alert.None? ==> selectedFile == file
      ensures alert.Some? ==> selectedFile == old(selectedFile)
    {
      alert := None;
      if file.Some? {
        var f := file.value;
        if f.mimeType != PDF_TYPE {
          alert := Some(NOT_PDF_ALERT);
          return;
        }
        if f.size > MAX_SIZE {
          alert := Some(TOO_LARGE_ALERT);
          return;
        }
        selectedFile := file;
      }
    }

    /**
     * `handleUpload` with the request settled after `ticks` timer firings:
     * with no selection only an alert; otherwise the progress climbs while
     * the request runs, a success closes and resets the form on page 1 and
     * ends at 100, and a failure resets the progress to 0.
     */
    method HandleUpload(ticks: nat, outcome: UploadOutcome) returns (alert: Option<string>)
      requires Valid()
      modifies this`showUploadForm, this`selectedFile, this`uploadProgress, this`currentPage, this`uploads
      ensures Valid()
      ensures old(selectedFile).None? ==>
                alert == Some(NO_FILE_ALERT) && uploads == old(uploads) && uploadProgress == old(uploadProgress) &&
                showUploadForm == old(showUploadForm) && selectedFile.None? && currentPage == old(currentPage)
      ensures old(selectedFile).Some? ==> alert.None? && uploads == old(uploads) + [old(selectedFile).value]
      ensures old(selectedFile).Some? && outcome.Uploaded? ==>
                uploadProgress == 100 && !showUploadForm && selectedFile.None? && currentPage == 1
      ensures old(selectedFile).Some? && outcome.UploadFailed? ==>
                uploadProgress == 0 && showUploadForm == old(showUploadForm) &&
                selectedFile == old(selectedFile) && currentPage == old(currentPage)
    {
      if selectedFile.None? {
        alert := Some(NO_FILE_ALERT);
        return;
      }
      alert := None;
      uploadProgress := 0;
      uploads := uploads + [selectedFile.value];
      var progress := SimulateProgress(ticks);
      assert progress <= 90;
      uploadProgress := progress;
      match outcome {
        case Uploaded =>
          // `onSuccess` resets the form and the progress; the handler then shows 100.
          showUploadForm, selectedFile, uploadProgress, currentPage := false, None, 0, 1;
          uploadProgress := 100;
        case UploadFailed =>
          uploadProgress := 0;
      }
    }

    /**
     * The progress timer: each firing leaves a value of 90 or more as it is
     * and stops, and adds 10 to anything less.
     */
    static method SimulateProgress(ticks: nat) returns (progress: nat)
      ensures progress == ProgressAfter(ticks)
    {
      progress := 0;
      var fired := 0;
      while fired < ticks
        invariant fired <= ticks
        invariant progress == ProgressAfter(fired)
      {
        if progress >= 90 {
          break;
        }
        progress := progress + 10;
        fired := fired + 1;
      }
    }

    method HandlePageChange(newPage: int)
      requires newPage >= 1
      modifies this`currentPage
      ensures Valid() && currentPage == newPage
    {
      currentPage := newPage;
    }

    /** Previous moves back one page, never below page 1. */
    method HandlePreviousPage()
      requires Valid()
      modifies this`currentPage
      ensures Valid()
      ensures old(currentPage) > 1 ==> currentPage == old(currentPage) - 1
      ensures old(currentPage) == 1 ==> currentPage == 1
    {
      if currentPage > 1 {
        currentPage := currentPage - 1;
      }
    }

    /** Next moves on one page, never past the last page of the filtered list. */
    method HandleNextPage()
      requires Valid()
      modifies this`currentPage
      ensures Valid()
      ensures old(currentPage) < TotalPages(Filtered()) ==> currentPage == old(currentPage) + 1
      ensures old(currentPage) >= TotalPages(Filtered()) ==> currentPage == old(currentPage)
    {
      if currentPage < TotalPages(FilterFiles(allFiles, searchTerm)) {
        currentPage := currentPage + 1;
      }
    }

    /** Typing in the search box starts again from page 1. */
    method HandleSearchChange(term: string)
      modifies this`searchTerm, this`currentPage
      ensures Valid() && searchTerm == term && currentPage == 1
    {
      searchTerm, currentPage := term, 1;
    }

    /** Submitting a non-blank search shows page 1 and the searching indicator. */
    method HandleSearchSubmit()
      requires Valid()
      modifies this`isSearching, this`currentPage
      ensures Valid()
      ensures IsBlank(searchTerm) ==> isSearching == old(isSearching) && currentPage == old(currentPage)
      ensures !IsBlank(searchTerm) ==> isSearching && currentPage == 1
    {
      BlankIffTrimEmpty(searchTerm);
      if Trim(searchTerm) != [] {
        isSearching, currentPage := true, 1;
      }
    }

    /** The half-second search delay ends. */
    method SearchDelayElapsed()
      modifies this`isSearching
      ensures !isSearching
    {
      isSearching := false;
    }
  }
}
