/** The admin roster page: a paginated, searchable listing whose query is
    (page, limit, debounced search), the five-wide page-button window, the
    "Showing X to Y of N" line, and roster statistics aggregated from a
    separate request. */
module Dashboard {
  import opened Common

  /** Body of `GET /students`: `data`, `total` and `totalPages`, any of
      which may be absent. */
  datatype ListBody = ListBody(data: Option<seq<Student>>, total: Option<nat>, totalPages: Option<nat>)

  /** The parameters of one listing request. */
  datatype Query = Query(page: int, limit: int, search: string)

  /** The page sizes the limit selector offers. */
  const LimitOptions: set<int> := {5, 10, 20, 50}

  function Min(a: int, b: int): int
  {
    if a <= b then a else b
  }

  /** `x` pulled into `lo..hi` (the lower bound wins when they cross). */
  function Clamp(x: int, lo: int, hi: int): int
  {
    if x < lo then lo else if x > hi then hi else x
  }

  /** `Math.min(5, totalPages)` as `Array.from` reads a length: a negative
      length gives no buttons. */
  function WindowLength(totalPages: int): nat
  {
    if totalPages < 0 then 0 else Min(5, totalPages)
  }

  /** The number on button `i`, by the if-chain of the page-button map. */
  function PageNumberAt(currentPage: int, totalPages: int, i: int): int
  {
    if totalPages <= 5 then i + 1
    else if currentPage <= 3 then i + 1
    else if currentPage >= totalPages - 2 then totalPages - 4 + i
    else currentPage - 2 + i
  }

  /** The page buttons: min(5, totalPages) consecutive increasing pages, all
      within 1..totalPages. Up to five pages they are all shown; beyond
      that the run starts two before the current page, clamped so that it
      stays within 1..totalPages. */
  function PageWindow(currentPage: int, totalPages: int): (w: seq<int>)
    ensures |w| == WindowLength(totalPages)
    ensures 1 <= totalPages <= 5 ==> w[0] == 1
    ensures totalPages > 5 ==> w[0] == Clamp(currentPage - 2, 1, totalPages - 4)
    ensures forall i :: 0 < i < |w| ==> w[i] == w[i - 1] + 1
    ensures forall i :: 0 <= i < |w| ==> 1 <= w[i] <= totalPages
  {
    seq(WindowLength(totalPages), i => PageNumberAt(currentPage, totalPages, i))
  }

  /** The window shows the current page whenever that page exists. */
  lemma PageWindowShowsCurrent(currentPage: int, totalPages: int)
    requires 1 <= currentPage <= totalPages
    ensures currentPage in PageWindow(currentPage, totalPages)
  {
    var w := PageWindow(currentPage, totalPages);
    var i := currentPage - PageNumberAt(currentPage, totalPages, 0);
    assert 0 <= i < |w| && w[i] == currentPage;
  }

  /** The three windows of a twelve-page listing. */
  lemma PageWindowExamples()
    ensures PageWindow(1, 12) == [1, 2, 3, 4, 5]
    ensures PageWindow(12, 12) == [8, 9, 10, 11, 12]
    ensures PageWindow(6, 12) == [4, 5, 6, 7, 8]
    ensures PageWindow(2, 3) == [1, 2, 3]
  {
  }

  /** The "Showing first to last of total" line. */
  datatype Range = Range(first: int, last: int)

  /** The first number is 0 on an empty page, else the position of the
      page's first row; the last is the page's end or the total, whichever
      is smaller. */
  function ShowingRange(rowCount: nat, currentPage: int, limit: int, total: int): (r: Range)
    requires currentPage >= 1 && limit >= 1
    ensures r.last <= total && r.last <= currentPage * limit
    ensures r.last == total || r.last == currentPage * limit
    ensures r.first == 0 <==> rowCount == 0
    ensures rowCount > 0 ==> r.first >= 1 && r.first - 1 == (currentPage - 1) * limit
  {
    Range(if rowCount > 0 then (currentPage - 1) * limit + 1 else 0, Min(currentPage * limit, total))
  }

  /** When the response is consistent (a page holds `limit` rows, the last
      page the rest), the range counts exactly the rows shown. */
  lemma ShowingCountsRows(total: int, limit: int, page: int)
    requires limit >= 1 && page >= 1 && 0 <= (page - 1) * limit < total
    ensures var rows := Min(limit, total - (page - 1) * limit);
            var r := ShowingRange(rows, page, limit, total);
            r.first >= 1 && r.last - r.first + 1 == rows
  {
    assert page * limit == (page - 1) * limit + limit;
  }

  /** 23 students in pages of 10. */
  lemma ShowingExamples()
    ensures ShowingRange(10, 1, 10, 23) == Range(1, 10)
    ensures ShowingRange(3, 3, 10, 23) == Range(21, 23)
    ensures ShowingRange(0, 1, 10, 0) == Range(0, 0)
  {
  }

  /** Roster statistics: a total, exact-match gender counters and a count
      per department. */
  datatype Stats = Stats(total: int, male: nat, female: nat, departments: map<string, nat>)

  /** Number of records whose gender is exactly `gender`. */
  function GenderCount(records: seq<Student>, gender: string): (n: nat)
    ensures n <= |records|
  {
    if records == [] then 0
    else
      GenderCount(records[..|records| - 1], gender) +
      (if records[|records| - 1].gender == Some(gender) then 1 else 0)
  }

  /** No record counts both as "Male" and as "Female". */
  lemma {:induction false} MaleFemaleAtMostAll(records: seq<Student>)
    ensures GenderCount(records, "Male") + GenderCount(records, "Female") <= |records|
  {
    if records != [] {
      MaleFemaleAtMostAll(records[..|records| - 1]);
    }
  }

  /** The key `departments[student.department]` uses: an absent department
      becomes the property name "undefined". */
  function DepartmentKey(department: Option<string>): string
  {
    if department.Some? then department.value else "undefined"
  }

  /** The department dictionary after counting `records` in order. */
  function DepartmentCounts(records: seq<Student>): map<string, nat>
  {
    if records == [] then map[]
    else
      var m := DepartmentCounts(records[..|records| - 1]);
      var key := DepartmentKey(records[|records| - 1].department);
      m[key := (if key in m then m[key] else 0) + 1]
  }

  /** Number of records filed under `key`. */
  function KeyCount(records: seq<Student>, key: string): nat
  {
    if records == [] then 0
    else KeyCount(records[..|records| - 1], key) + (if DepartmentKey(records[|records| - 1].department) == key then 1 else 0)
  }

  /** The dictionary holds exactly the departments that occur, each with the
      number of its records. */
  lemma {:induction false} DepartmentCountsExact(records: seq<Student>, key: string)
    ensures key in DepartmentCounts(records) <==> KeyCount(records, key) > 0
    ensures key in DepartmentCounts(records) ==> DepartmentCounts(records)[key] == KeyCount(records, key)
  {
    if records != [] {
      DepartmentCountsExact(records[..|records| - 1], key);
    }
  }

  ghost function AnyKey(m: map<string, nat>): (k: string)
    requires |m| > 0
    ensures k in m
  {
    var k :| k in m; k
  }

  /** Sum of the values of a dictionary. */
  ghost function MapTotal(m: map<string, nat>): nat
    decreases |m|
  {
    if |m| == 0 then 0
    else
      var k := AnyKey(m);
      assert (m - {k}).Keys == m.Keys - {k};
      m[k] + MapTotal(m - {k})
  }

  /** The sum does not depend on which key is taken out first. */
  lemma MapTotalRemove(m: map<string, nat>, k: string)
    requires k in m
    ensures MapTotal(m) == m[k] + MapTotal(m - {k})
    decreases |m|
  {
    var j := AnyKey(m);
    assert (m - {j}).Keys == m.Keys - {j};
    if j != k {
      assert (m - {k}).Keys == m.Keys - {k};
      MapTotalRemove(m - {j}, k);
      MapTotalRemove(m - {k}, j);
      assert m - {j} - {k} == m - {k} - {j};
    }
  }

  /** The department counts add up to the number of records. */
  lemma {:induction false} DepartmentCountsSum(records: seq<Student>)
    ensures MapTotal(DepartmentCounts(records)) == |records|
  {
    if records != [] {
      var init := records[..|records| - 1];
      DepartmentCountsSum(init);
      var m := DepartmentCounts(init);
      var key := DepartmentKey(records[|records| - 1].department);
      var m' := DepartmentCounts(records);
      assert m' == m[key := (if key in m then m[key] else 0) + 1];
      MapTotalRemove(m', key);
      assert m' - {key} == m - {key};
      if key in m {
        MapTotalRemove(m, key);
      } else {
        assert m - {key} == m;
      }
    }
  }

  /** `fetchAllStats`' loop over the roster: one pass incrementing the
      gender counters and the department dictionary. */
  method AggregateStats(records: seq<Student>, total: Option<nat>) returns (stats: Stats)
    ensures stats.male == GenderCount(records, "Male")
    ensures stats.female == GenderCount(records, "Female")
    ensures stats.departments == DepartmentCounts(records)
    ensures stats.total == CountOr(total, |records|)
  {
    var departments: map<string, nat> := map[];
    var male, female := 0, 0;
    var i := 0;
    while i < |records|
      invariant 0 <= i <= |records|
      invariant male == GenderCount(records[..i], "Male")
      invariant female == GenderCount(records[..i], "Female")
      invariant departments == DepartmentCounts(records[..i])
    {
      var student := records[i];
      assert records[..i + 1][..i] == records[..i];
      if student.gender == Some("Male") {
        male := male + 1;
      }
      if student.gender == Some("Female") {
        female := female + 1;
      }
      var key := DepartmentKey(student.department);
      departments := departments[key := (if key in departments then departments[key] else 0) + 1];
      i := i + 1;
    }
    assert records[..i] == records;
    stats := Stats(CountOr(total, |records|), male, female, departments);
  }

  /** The page's state. Requests are split into the call (which returns the
      query sent) and the arrival of its response (an input). */
  class DashboardState {
    var students: seq<Student>
    var initialLoading: bool
    var fetchingStudents: bool
    var error: string
    var currentPage: int
    var totalPages: int
    var totalStudents: int
    var limit: int
    var debouncedSearch: string
    var debounce: Debounce
    var isFirstLoad: bool
    var stats: Stats

    ghost predicate Valid()
      reads this
    {
      currentPage >= 1 && totalPages >= 1 && totalStudents >= 0 && limit in LimitOptions
    }

    /** The state on mount. */
    constructor ()
      ensures Valid()
      ensures students == [] && initialLoading && !fetchingStudents && error == ""
      ensures currentPage == 1 && totalPages == 1 && totalStudents == 0 && limit == 10
      ensures debouncedSearch == "" && debounce == Idle && isFirstLoad
      ensures stats == Stats(0, 0, 0, map[])
    {
      students := [];
      initialLoading := true;
      fetchingStudents := false;
      error := "";
      currentPage := 1;
      totalPages := 1;
      totalStudents := 0;
      limit := 10;
      debouncedSearch := "";
      debounce := Idle;
      isFirstLoad := true;
      stats := Stats(0, 0, 0, map[]);
    }

    /** `handleSearch`: a keystroke replaces whatever was pending. */
    method Search(text: string)
      modifies this`debounce
      ensures debounce == Pending(text)
    {
      debounce := Pending(text);
    }

    /** The debounce timer fires: the pending text becomes the search and
      the listing goes back to page 1. Returns the text committed. */
    method FireDebounce() returns (committed: Option<string>)
      requires Valid()
      modifies this`debounce, this`debouncedSearch, this`currentPage
      ensures Valid() && debounce == Idle
      ensures old(debounce).Pending? ==>
                committed == Some(old(debounce).value) && debouncedSearch == old(debounce).value && currentPage == 1
      ensures old(debounce).Idle? ==>
                committed == None && debouncedSearch == old(debouncedSearch) && currentPage == old(currentPage)
    {
      committed := None;
      if debounce.Pending? {
        committed := Some(debounce.value);
        debouncedSearch := debounce.value;
        currentPage := 1;
      }
      debounce := Idle;
    }

    /** `fetchStudents` up to the request: the blocking indicator on the
      first load, the inline one afterwards. */
    method StartFetch() returns (q: Query)
      modifies this`initialLoading, this`fetchingStudents, this`error
      ensures q == Query(currentPage, limit, debouncedSearch)
      ensures isFirstLoad ==> initialLoading && fetchingStudents == old(fetchingStudents)
      ensures !isFirstLoad ==> fetchingStudents && initialLoading == old(initialLoading)
      ensures error == ""
    {
      if isFirstLoad {
        initialLoading := true;
      } else {
        fetchingStudents := true;
      }
      error := "";
      q := Query(currentPage, limit, debouncedSearch);
    }

    /** `fetchStudents` after the response: rows and pagination metadata on
      success, the error message on failure, and both indicators off
      either way. Only a success ends the first load. */
    method FinishFetch(response: Response<ListBody>)
      requires Valid()
      modifies this`students, this`totalPages, this`totalStudents, this`isFirstLoad, this`error,
               this`initialLoading, this`fetchingStudents
      ensures Valid()
      ensures !initialLoading && !fetchingStudents
      ensures response.Received? ==>
                var body := response.body;
                && students == (if body.data.Some? then body.data.value else [])
                && totalPages == CountOr(body.totalPages, 1)
                && totalStudents == CountOr(body.total, 0)
                && !isFirstLoad && error == old(error)
      ensures response.Refused? ==>
                && students == old(students) && totalPages == old(totalPages)
                && totalStudents == old(totalStudents) && isFirstLoad == old(isFirstLoad)
                && error == ErrorText(response.message, "Failed to fetch students")
    {
      match response {
        case Received(body) =>
          students := if body.data.Some? then body.data.value else [];
          totalPages := CountOr(body.totalPages, 1);
          totalStudents := CountOr(body.total, 0);
          if isFirstLoad {
            isFirstLoad := false;
          }
        case Refused(message) =>
          error := ErrorText(message, "Failed to fetch students");
      }
      initialLoading := false;
      fetchingStudents := false;
    }

    /** `fetchAllStats`: the aggregate of the roster on success; a failure
      is only logged. */
    method FetchAllStats(response: Response<ListBody>)
      modifies this`stats
      ensures response.Received? ==>
                var records := if response.body.data.Some? then response.body.data.value else [];
                && stats.male == GenderCount(records, "Male")
                && stats.female == GenderCount(records, "Female")
                && stats.departments == DepartmentCounts(records)
                && stats.total == CountOr(response.body.total, |records|)
      ensures response.Refused? ==> stats == old(stats)
    {
      if response.Received? {
        var records := if response.body.data.Some? then response.body.data.value else [];
        stats := AggregateStats(records, response.body.total);
      }
    }

    /** `handleDelete`, the page's `onDelete`: on success clear the error
      and refetch; on failure record the message and rethrow. */
    method Delete(result: Outcome) returns (refetch: bool, rethrown: bool)
      modifies this`error
      ensures refetch == result.Ok? && rethrown == result.Failed?
      ensures result.Ok? ==> error == ""
      ensures result.Failed? ==> error == ErrorText(result.message, "Failed to delete student")
    {
      if result.Ok? {
        error := "";
        refetch, rethrown := true, false;
      } else {
        error := ErrorText(result.message, "Failed to delete student");
        refetch, rethrown := false, true;
      }
    }

    /** `handlePageChange`: only an existing page is accepted. */
    method PageChange(newPage: int)
      requires Valid()
      modifies this`currentPage
      ensures Valid()
      ensures currentPage == (if 1 <= newPage <= totalPages then newPage else old(currentPage))
    {
      if newPage >= 1 && newPage <= totalPages {
        currentPage := newPage;
      }
    }

    /** `handleLimitChange`: a new page size always restarts at page 1. */
    method LimitChange(newLimit: int)
      requires Valid() && newLimit in LimitOptions
      modifies this`limit, this`currentPage
      ensures Valid()
      ensures limit == newLimit && currentPage == 1
    {
      limit := newLimit;
      currentPage := 1;
    }
  }

  /** A burst of keystrokes followed by the timer: nothing is committed
      until the timer fires, and then exactly the last text, on page 1. */
  method SearchBurst(d: DashboardState, typed: seq<string>) returns (committed: Option<string>)
    requires d.Valid() && typed != []
    modifies d
    ensures d.Valid()
    ensures committed == Some(typed[|typed| - 1])
    ensures d.debouncedSearch == typed[|typed| - 1] && d.currentPage == 1
    ensures d.students == old(d.students) && d.limit == old(d.limit) && d.stats == old(d.stats)
    ensures d.totalPages == old(d.totalPages) && d.totalStudents == old(d.totalStudents) && d.error == old(d.error)
  {
    var i := 0;
    while i < |typed|
      invariant 0 <= i <= |typed|
      invariant d.Valid()
      invariant d.debounce == AfterKeystrokes(old(d.debounce), typed[..i])
      invariant d.debouncedSearch == old(d.debouncedSearch) && d.currentPage == old(d.currentPage)
      invariant d.students == old(d.students) && d.limit == old(d.limit) && d.stats == old(d.stats)
      invariant d.totalPages == old(d.totalPages) && d.totalStudents == old(d.totalStudents) && d.error == old(d.error)
    {
      d.Search(typed[i]);
      i := i + 1;
    }
    committed := d.FireDebounce();
  }
}
