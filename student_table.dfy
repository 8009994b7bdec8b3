/** The roster table: each row's average and the confirm-then-delete-then-
    refresh sequence of its delete button. */
module StudentTable {
  import opened Common
  import StudentView
  import Dashboard

  /** `calculateAverage(subjects)`, before rounding to two places: "N/A"
      (None) without subjects, else the total (absent marks as 0) over the
      count. */
  function CalculateAverage(subjects: Option<seq<Subject>>): (avg: Option<real>)
    ensures avg.None? <==> subjects.None? || subjects.value == []
    ensures avg.Some? ==> avg.value * (|subjects.value| as real) == TotalOrZero(subjects.value) as real
  {
    if subjects.None? || subjects.value == [] then None
    else Some(TotalOrZero(subjects.value) as real / |subjects.value| as real)
  }

  /** Where the table shows a number it is the student view's average;
      where it shows "N/A" the student view shows 0. */
  lemma AgreesWithStudentView(subjects: Option<seq<Subject>>)
    ensures CalculateAverage(subjects).Some? ==> CalculateAverage(subjects).value == StudentView.CalculateAverage(subjects)
    ensures CalculateAverage(subjects).None? ==> StudentView.CalculateAverage(subjects) == 0.0
  {
    if subjects.Some? && subjects.value != [] {
      var n := |subjects.value| as real;
      var a := CalculateAverage(subjects).value;
      var b := StudentView.CalculateAverage(subjects);
      assert a * n == b * n;
    }
  }

  /** A call the table makes on its parent. */
  datatype Call = OnDelete(id: string) | OnRefresh

  /** `handleDelete(id, name)`: ask; if confirmed, await `onDelete(id)` and
      then call `onRefresh()`. If `onDelete` throws, the exception
      propagates and `onRefresh` is skipped. */
  method HandleDelete(id: string, confirmed: bool, deleteSucceeds: bool) returns (calls: seq<Call>, threw: bool)
    ensures !confirmed ==> calls == [] && !threw
    ensures confirmed ==> |calls| >= 1 && calls[0] == OnDelete(id)
    ensures OnRefresh in calls <==> confirmed && deleteSucceeds
    ensures OnRefresh in calls ==> calls == [OnDelete(id), OnRefresh]
    ensures threw <==> confirmed && !deleteSucceeds
  {
    calls := [];
    threw := false;
    if confirmed {
      calls := calls + [OnDelete(id)];
      if !deleteSucceeds {
        threw := true;
        return;
      }
      calls := calls + [OnRefresh];
    }
  }

  /** The table on the admin roster, whose `onDelete` is the roster's own
      delete handler (which refetches itself) and whose `onRefresh` is the
      roster's fetch: a confirmed, successful delete fetches the page twice. */
  method DeleteOnDashboard(d: Dashboard.DashboardState, id: string, confirmed: bool, result: Outcome)
    returns (fetches: nat, threw: bool)
    modifies d
    ensures fetches == (if confirmed && result.Ok? then 2 else 0)
    ensures threw <==> confirmed && result.Failed?
    ensures !confirmed ==> d.error == old(d.error)
  {
    var calls;
    calls, threw := HandleDelete(id, confirmed, result.Ok?);
    fetches := 0;
    if OnDelete(id) in calls {
      var refetch, _ := d.Delete(result);
      if refetch {
        fetches := fetches + 1;
      }
    }
    if OnRefresh in calls {
      fetches := fetches + 1;
    }
  }
}
