/** The subject-management landing page: a searchable, paginated student
    listing with a fixed page size of 10 and its own page-button loop. */
module SubjectsLanding {
  import opened Common
  import Dashboard

  /** The page size, a constant on this page. */
  const Limit: int := 10

  /** How many page buttons are shown at most. */
  const MaxVisiblePages: int := 5

  function Max(a: int, b: int): int
  {
    if a >= b then a else b
  }

  /** `renderPageNumbers`: centre a run of five on the current page, pull it
      back when it would pass the last page, and emit start..end in a loop.
      It yields exactly the admin roster's page window, for every current
      page and page count. */
  method RenderPageNumbers(currentPage: int, totalPages: int) returns (pages: seq<int>)
    ensures pages == Dashboard.PageWindow(currentPage, totalPages)
    ensures |pages| == Dashboard.WindowLength(totalPages)
    ensures forall k :: 0 < k < |pages| ==> pages[k] == pages[k - 1] + 1
    ensures forall k :: 0 <= k < |pages| ==> 1 <= pages[k] <= totalPages
  {
    pages := [];
    var startPage := Max(1, currentPage - MaxVisiblePages / 2);
    var endPage := Dashboard.Min(totalPages, startPage + MaxVisiblePages - 1);
    if endPage - startPage + 1 < MaxVisiblePages {
      startPage := Max(1, endPage - MaxVisiblePages + 1);
    }
    ghost var expected := Dashboard.PageWindow(currentPage, totalPages);
    assert |expected| == if endPage < startPage then 0 else endPage - startPage + 1;
    assert |expected| > 0 ==> expected[0] == startPage;
    var i := startPage;
    while i <= endPage
      invariant startPage <= i <= Max(startPage, endPage + 1)
      invariant |pages| == i - startPage
      invariant forall k :: 0 <= k < |pages| ==> pages[k] == startPage + k
    {
      pages := pages + [i];
      i := i + 1;
    }
    assert |pages| == |expected|;
    assert forall k :: 0 <= k < |pages| ==> pages[k] == expected[k];
  }

  /** The listing's state. */
  class ListingState {
    var students: seq<Student>
    var currentPage: int
    var totalPages: int
    var totalStudents: int
    var initialLoading: bool
    var fetchingStudents: bool
    var debouncedSearch: string
    var debounce: Debounce
    var isFirstLoad: bool

    ghost predicate Valid()
      reads this
    {
      currentPage >= 1 && totalPages >= 1 && totalStudents >= 0
    }

    /** The state on mount. */
    constructor ()
      ensures Valid()
      ensures students == [] && currentPage == 1 && totalPages == 1 && totalStudents == 0
      ensures initialLoading && !fetchingStudents
      ensures debouncedSearch == "" && debounce == Idle && isFirstLoad
    {
      students := [];
      currentPage := 1;
      totalPages := 1;
      totalStudents := 0;
      initialLoading := true;
      fetchingStudents := false;
      debouncedSearch := "";
      debounce := Idle;
      isFirstLoad := true;
    }

    /** `fetchStudents` up to the request. Unlike the admin roster, the
      first-load flag is cleared here, before any response. */
    method StartFetch() returns (q: Dashboard.Query)
      modifies this`initialLoading, this`fetchingStudents, this`isFirstLoad
      ensures q == Dashboard.Query(currentPage, Limit, debouncedSearch)
      ensures !isFirstLoad
      ensures old(isFirstLoad) ==> initialLoading && fetchingStudents == old(fetchingStudents)
      ensures !old(isFirstLoad) ==> fetchingStudents && initialLoading == old(initialLoading)
    {
      if isFirstLoad {
        initialLoading := true;
        isFirstLoad := false;
      } else {
        fetchingStudents := true;
      }
      q := Dashboard.Query(currentPage, Limit, debouncedSearch);
    }

    /** `fetchStudents` after the response: rows and metadata on success; a
      failure is only logged. Both indicators are off either way. */
    method FinishFetch(response: Response<Dashboard.ListBody>)
      requires Valid()
      modifies this`students, this`totalPages, this`totalStudents, this`initialLoading, this`fetchingStudents
      ensures Valid()
      ensures !initialLoading && !fetchingStudents
      ensures response.Received? ==>
                var body := response.body;
                && students == (if body.data.Some? then body.data.value else [])
                && totalPages == CountOr(body.totalPages, 1)
                && totalStudents == CountOr(body.total, 0)
      ensures response.Refused? ==>
                students == old(students) && totalPages == old(totalPages) && totalStudents == old(totalStudents)
    {
      if response.Received? {
        var body := response.body;
        students := if body.data.Some? then body.data.value else [];
        totalPages := CountOr(body.totalPages, 1);
        totalStudents := CountOr(body.total, 0);
      }
      initialLoading := false;
      fetchingStudents := false;
    }

    /** `handleSearchChange`: a keystroke replaces whatever was pending. */
    method SearchChange(text: string)
      modifies this`debounce
      ensures debounce == Pending(text)
    {
      debounce := Pending(text);
    }

    /** The debounce timer fires: the pending text becomes the search, back
      on page 1. Returns the text committed. */
    method FireDebounce() returns (committed: Option<string>)
      requires Valid()
      modifies this`debounce, this`debouncedSearch, this`currentPage
      ensures Valid() && debounce == Idle
      ensures old(debounce).Pending? ==>
                committed == Some(old(debounce).value) && debouncedSearch == old(debounce).value && currentPage == 1
      ensures old(debounce).Idle? ==>
                committed == None && debouncedSearch == old(debouncedSearch) && currentPage == old(currentPage)
    {
      committed := None;
      if debounce.Pending? {
        committed := Some(debounce.value);
        debouncedSearch := debounce.value;
        currentPage := 1;
      }
      debounce := Idle;
    }

    /** `handlePageChange`: only an existing page is accepted. */
    method PageChange(newPage: int)
      requires Valid()
      modifies this`currentPage
      ensures Valid()
      ensures currentPage == (if 1 <= newPage <= totalPages then newPage else old(currentPage))
    {
      if newPage >= 1 && newPage <= totalPages {
        currentPage := newPage;
      }
    }
  }

  /** On this page a first fetch that fails still ends the first load,
      whereas the admin roster keeps its blocking indicator for the next
      attempt. */
  method FailedFirstLoad(l: ListingState, d: Dashboard.DashboardState, message: Option<string>)
    requires l.Valid() && d.Valid() && l.isFirstLoad && d.isFirstLoad
    modifies l, d
    ensures !l.isFirstLoad && d.isFirstLoad
    ensures !l.initialLoading && !d.initialLoading
  {
    var _ := l.StartFetch();
    l.FinishFetch(Refused(message));
    var _ := d.StartFetch();
    d.FinishFetch(Refused(message));
  }
}
