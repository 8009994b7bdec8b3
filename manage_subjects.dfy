/** The subject/marks editor of one student: the S..F grading scale with A+
    from 85, pass/fail per subject and overall, the average, and the
    index-keyed edits of the subject list. */
module ManageSubjects {
  import opened Common

  /** Lowest mark of each grade on this page's scale (F has no threshold). */
  function Threshold(g: Grade): int
  {
    match g
    case S => 90
    case APlus => 85
    case A => 80
    case BPlus => 70
    case B => 60
    case C => 50
    case D => 40
    case F => 0
  }

  /** Whether `mark` earns at least grade `g`: every mark earns F, and a
      missing mark (NaN after parseInt) earns nothing better. */
  predicate Reaches(mark: Mark, g: Grade)
  {
    g == F || (mark.Num? && mark.n >= Threshold(g))
  }

  /** `getGrade`: the best grade whose threshold the mark reaches. */
  function GetGrade(mark: Mark): (g: Grade)
    ensures Reaches(mark, g)
    ensures forall h :: Reaches(mark, h) ==> Rank(h) <= Rank(g)
  {
    match mark
    case Missing => F
    case Num(m) =>
      if m >= 90 then S
      else if m >= 85 then APlus
      else if m >= 80 then A
      else if m >= 70 then BPlus
      else if m >= 60 then B
      else if m >= 50 then C
      else if m >= 40 then D
      else F
  }

  /** A higher mark never earns a lower grade. */
  lemma GetGradeMonotone(m1: int, m2: int)
    requires m1 <= m2
    ensures Rank(GetGrade(Num(m1))) <= Rank(GetGrade(Num(m2)))
  {
    assert Reaches(Num(m2), GetGrade(Num(m1)));
  }

  /** The lower bounds are inclusive. */
  lemma GetGradeBoundaries()
    ensures GetGrade(Num(90)) == S && GetGrade(Num(89)) == APlus
    ensures GetGrade(Num(85)) == APlus && GetGrade(Num(84)) == A
    ensures GetGrade(Num(40)) == D && GetGrade(Num(39)) == F
    ensures GetGrade(Missing) == F
  {
  }

  datatype Verdict = Pass | Fail

  /** `getPassFail`: a subject passes from 40 marks, and exactly when its
      grade is not F. */
  function GetPassFail(mark: Mark): (v: Verdict)
    ensures v == Pass <==> mark.Num? && mark.n >= 40
    ensures v == Pass <==> GetGrade(mark) != F
  {
    if mark.Num? && mark.n >= 40 then Pass else Fail
  }

  /** Number of subjects with `mark < 40`; a missing mark fails that test. */
  function FailCount(subjects: seq<Subject>): (n: nat)
    ensures n <= |subjects|
    ensures n == 0 <==> forall i :: 0 <= i < |subjects| ==> !(subjects[i].mark.Num? && subjects[i].mark.n < 40)
  {
    if subjects == [] then 0
    else
      var last := subjects[|subjects| - 1];
      FailCount(subjects[..|subjects| - 1]) + (if last.mark.Num? && last.mark.n < 40 then 1 else 0)
  }

  /** `getTotalPassFail`: Pass when the list is non-empty and no mark is below 40. */
  function GetTotalPassFail(subjects: seq<Subject>): (v: Verdict)
    ensures v == Pass <==> |subjects| > 0 && forall i :: 0 <= i < |subjects| ==> !(subjects[i].mark.Num? && subjects[i].mark.n < 40)
  {
    if FailCount(subjects) == 0 && |subjects| > 0 then Pass else Fail
  }

  /** With every mark present, the overall result is Pass exactly when the
      list is non-empty and every row shows Pass. */
  lemma TotalPassFailAgreesWithRows(subjects: seq<Subject>)
    requires AllNumeric(subjects)
    ensures GetTotalPassFail(subjects) == Pass <==>
              |subjects| > 0 && forall i :: 0 <= i < |subjects| ==> GetPassFail(subjects[i].mark) == Pass
  {
  }

  /** A row whose mark is missing shows Fail, yet it does not stop the
      overall result from being Pass. */
  lemma MissingMarkOverallPass()
    ensures GetPassFail(Subject("Physics", Missing).mark) == Fail
    ensures GetTotalPassFail([Subject("Physics", Missing)]) == Pass
  {
    assert FailCount([Subject("Physics", Missing)]) == 0;
  }

  /** `subjects.reduce((sum, s) => sum + s.mark, 0)`: NaN as soon as one mark is missing. */
  function Total(subjects: seq<Subject>): (t: Mark)
    ensures t.Num? <==> AllNumeric(subjects)
    ensures t.Num? ==> t.n == TotalOrZero(subjects)
  {
    if subjects == [] then Num(0)
    else
      var init := Total(subjects[..|subjects| - 1]);
      var last := subjects[|subjects| - 1].mark;
      if init.Num? && last.Num? then Num(init.n + last.n) else Missing
  }

  /** Integer part of a quotient, as `parseInt` reads a decimal string:
      truncation toward zero (Dafny's `/` on int is Euclidean). */
  function TruncDiv(a: int, b: int): (q: int)
    requires b > 0
    ensures a >= 0 ==> q * b <= a < (q + 1) * b
    ensures a < 0 ==> (q - 1) * b < a <= q * b
  {
    if a >= 0 then a / b else -((-a) / b)
  }

  /** The value `calculateAverage` displays, before rounding to two places:
      0 for an empty list, NaN when a mark is missing, else total / count. */
  function CalculateAverage(subjects: seq<Subject>): (avg: Option<real>)
    ensures subjects == [] ==> avg == Some(0.0)
    ensures subjects != [] ==> (avg.Some? <==> AllNumeric(subjects))
    ensures subjects != [] && avg.Some? ==> avg.value * (|subjects| as real) == TotalOrZero(subjects) as real
  {
    if subjects == [] then Some(0.0)
    else
      match Total(subjects)
      case Missing => None
      case Num(t) => Some(t as real / |subjects| as real)
  }

  /** With every mark in 0..100 the average lies in 0..100. */
  lemma AverageInRange(subjects: seq<Subject>)
    requires MarksInRange(subjects)
    ensures CalculateAverage(subjects).Some?
    ensures 0.0 <= CalculateAverage(subjects).value <= 100.0
  {
    if subjects != [] {
      TotalInRange(subjects);
      assert Total(subjects) == Num(TotalOrZero(subjects));
      QuotientInRange(TotalOrZero(subjects), |subjects|);
    }
  }

  /** The grade of the summary row: `getGrade(calculateAverage())`, where
      parseInt keeps the integer part of the displayed average. */
  function OverallGrade(subjects: seq<Subject>): (g: Grade)
    ensures subjects == [] ==> g == F
    ensures !AllNumeric(subjects) ==> g == F
    ensures subjects != [] && AllNumeric(subjects) ==>
              g == GetGrade(Num(TruncDiv(TotalOrZero(subjects), |subjects|)))
  {
    if subjects == [] then GetGrade(Num(0))
    else
      match Total(subjects)
      case Missing => GetGrade(Missing)
      case Num(t) => GetGrade(Num(TruncDiv(t, |subjects|)))
  }

  /** For non-negative marks the overall grade is the grade of the integer
      part of the average: an average of 84.9 earns A, not A+. */
  lemma OverallGradeOfAverage(subjects: seq<Subject>)
    requires subjects != [] && MarksInRange(subjects)
    ensures OverallGrade(subjects) == GetGrade(Num(CalculateAverage(subjects).value.Floor))
  {
    TotalInRange(subjects);
    var t := TotalOrZero(subjects);
    assert Total(subjects) == Num(t);
    assert CalculateAverage(subjects).value == t as real / |subjects| as real;
    FloorOfQuotient(t, |subjects|);
  }

  /** The floor of an exact quotient of naturals is their integer quotient. */
  lemma FloorOfQuotient(t: int, n: int)
    requires t >= 0 && n > 0
    ensures (t as real / n as real).Floor == t / n
  {
    var q, r := t / n, t % n;
    var x := t as real / n as real;
    assert x * (n as real) == t as real;
    assert (q as real) * (n as real) == (q * n) as real;
    assert ((q + 1) as real) * (n as real) == ((q + 1) * n) as real;
    FloorBetween(x, q, n as real);
  }

  /** If q*n <= x*n < (q+1)*n with n > 0, then the floor of x is q. */
  lemma FloorBetween(x: real, q: int, n: real)
    requires n > 0.0
    requires (q as real) * n <= x * n < ((q + 1) as real) * n
    ensures x.Floor == q
  {
  }

  /** What `handleAddSubject` makes of the add form: an error message, or
      the subject to append. */
  datatype Validation = Rejected(message: string) | Accepted(subject: Subject)

  /** ECMAScript white space and line terminators, which `trim` removes. */
  predicate IsSpace(c: char)
  {
    c == '\t' || c == '\n' || c == '\U{000B}' || c == '\U{000C}' || c == '\r' || c == ' ' ||
    c == '\U{00A0}' || c == '\U{1680}' || ('\U{2000}' <= c <= '\U{200A}') ||
    c == '\U{2028}' || c == '\U{2029}' || c == '\U{202F}' || c == '\U{205F}' ||
    c == '\U{3000}' || c == '\U{FEFF}'
  }

  /** `!s.trim()`: nothing is left after trimming. */
  predicate IsBlank(s: string)
  {
    forall i :: 0 <= i < |s| ==> IsSpace(s[i])
  }

  /** The checks of `handleAddSubject`, in order: both fields filled, then
      the mark in 0..100. The name is stored untrimmed. */
  function ValidateNewSubject(name: string, marks: NumberInput): (v: Validation)
    ensures v.Accepted? <==> !IsBlank(name) && marks.Entered? && 0 <= marks.n <= 100
    ensures v.Accepted? ==> v.subject == Subject(name, Num(marks.n))
    ensures v == Rejected("Please fill all fields") <==> IsBlank(name) || marks.Blank?
    ensures v == Rejected("Marks must be between 0 and 100") <==>
              !IsBlank(name) && marks.Entered? && (marks.n < 0 || marks.n > 100)
  {
    if IsBlank(name) || marks.Blank? then Rejected("Please fill all fields")
    else if marks.n < 0 || marks.n > 100 then Rejected("Marks must be between 0 and 100")
    else Accepted(Subject(name, Num(marks.n)))
  }

  /** One keystroke in a row being edited. */
  datatype Edit = NameEdit(text: string) | MarkEdit(input: NumberInput)

  /** `parseInt` of a number input: an empty input parses to NaN. */
  function ParseInt(input: NumberInput): Mark
  {
    if input.Entered? then Num(input.n) else Missing
  }

  /** The list after `handleEditChange(index, field, value)`: a name is
      always written; a mark only when it parses to a number in 0..100. */
  function EditedAt(subjects: seq<Subject>, index: nat, edit: Edit): (r: seq<Subject>)
    requires index < |subjects|
    ensures |r| == |subjects|
    ensures forall j :: 0 <= j < |r| && j != index ==> r[j] == subjects[j]
    ensures edit.NameEdit? ==> r[index] == subjects[index].(subjectName := edit.text)
    ensures edit.MarkEdit? && edit.input.Entered? && 0 <= edit.input.n <= 100 ==>
              r[index] == subjects[index].(mark := Num(edit.input.n))
    ensures edit.MarkEdit? && !(edit.input.Entered? && 0 <= edit.input.n <= 100) ==> r == subjects
  {
    match edit
    case NameEdit(text) => subjects[index := subjects[index].(subjectName := text)]
    case MarkEdit(input) =>
      var marks := ParseInt(input);
      if marks.Num? && marks.n >= 0 && marks.n <= 100
      then subjects[index := subjects[index].(mark := marks)]
      else subjects
  }

  /** The editor's state. The student fetch, the PUT requests and the
      confirmation dialog are inputs to its methods. */
  class SubjectManager {
    var subjects: seq<Subject>
    var loading: bool
    var newName: string
    var newMarks: NumberInput
    var showAddForm: bool
    var error: string
    var success: string

    /** The page as first rendered: loading, with an empty add form. */
    constructor ()
      ensures subjects == [] && loading
      ensures newName == "" && newMarks == Blank && !showAddForm
      ensures error == "" && success == ""
    {
      subjects := [];
      loading := true;
      newName := "";
      newMarks := Blank;
      showAddForm := false;
      error := "";
      success := "";
    }

    /** `fetchStudent`: the fetched record's subjects (or none), or the
      error message; loading ends either way. */
    method FetchStudent(response: Response<Student>)
      modifies this`subjects, this`loading, this`error
      ensures !loading
      ensures response.Received? ==>
                error == old(error) &&
                subjects == (if response.body.subjects.Some? then response.body.subjects.value else [])
      ensures response.Refused? ==>
                subjects == old(subjects) && error == ErrorText(response.message, "Failed to fetch student")
    {
      loading := true;
      if response.Received? {
        var student := response.body;
        subjects := if student.subjects.Some? then student.subjects.value else [];
      } else {
        error := ErrorText(response.message, "Failed to fetch student");
      }
      loading := false;
    }

    /** The add form's name input. */
    method TypeName(text: string)
      modifies this`newName
      ensures newName == text
    {
      newName := text;
    }

    /** The add form's marks input. */
    method TypeMarks(input: NumberInput)
      modifies this`newMarks
      ensures newMarks == input
    {
      newMarks := input;
    }

    /** `handleAddSubject`: validate, then PUT the appended list and adopt it
      only when the request succeeds. Returns the list sent, if any. */
    method AddSubject(put: Outcome) returns (sent: Option<seq<Subject>>)
      modifies this`subjects, this`newName, this`newMarks, this`showAddForm, this`error, this`success
      ensures var v := ValidateNewSubject(old(newName), old(newMarks));
              sent == (if v.Accepted? then Some(old(subjects) + [v.subject]) else None)
      ensures ValidateNewSubject(old(newName), old(newMarks)).Rejected? ==>
                error == ValidateNewSubject(old(newName), old(newMarks)).message &&
                subjects == old(subjects) && newName == old(newName) && newMarks == old(newMarks) &&
                showAddForm == old(showAddForm) && success == old(success)
      ensures sent.Some? && put.Ok? ==>
                subjects == sent.value && newName == "" && newMarks == Blank && !showAddForm &&
                success == "Subject added successfully" && error == ""
      ensures sent.Some? && put.Failed? ==>
                subjects == old(subjects) && error == ErrorText(put.message, "Failed to add subject") &&
                newName == old(newName) && newMarks == old(newMarks) &&
                showAddForm == old(showAddForm) && success == old(success)
    {
      var v := ValidateNewSubject(newName, newMarks);
      if v.Rejected? {
        error := v.message;
        sent := None;
        return;
      }
      var updated := subjects + [v.subject];
      sent := Some(updated);
      if put.Ok? {
        subjects := updated;
        newName := "";
        newMarks := Blank;
        showAddForm := false;
        success := "Subject added successfully";
        error := "";
      } else {
        error := ErrorText(put.message, "Failed to add subject");
      }
    }

    /** `handleDeleteSubject(index)`: after confirmation, PUT the list
      without row `index` and adopt it when the request succeeds. */
    method DeleteSubject(index: int, confirmed: bool, put: Outcome) returns (sent: Option<seq<Subject>>)
      modifies this`subjects, this`error, this`success
      ensures sent == (if confirmed then Some(RemoveAt(old(subjects), index)) else None)
      ensures !confirmed ==> subjects == old(subjects) && error == old(error) && success == old(success)
      ensures confirmed && put.Ok? ==>
                subjects == RemoveAt(old(subjects), index) && success == "Subject deleted successfully" && error == ""
      ensures confirmed && put.Failed? ==>
                subjects == old(subjects) && success == old(success) &&
                error == ErrorText(put.message, "Failed to delete subject")
    {
      sent := None;
      if confirmed {
        var updated := RemoveAt(subjects, index);
        sent := Some(updated);
        if put.Ok? {
          subjects := updated;
          success := "Subject deleted successfully";
          error := "";
        } else {
          error := ErrorText(put.message, "Failed to delete subject");
        }
      }
    }

    /** `handleEditChange(index, field, value)` on a displayed row. */
    method EditChange(index: nat, edit: Edit)
      requires index < |subjects|
      modifies this`subjects
      ensures subjects == EditedAt(old(subjects), index, edit)
    {
      match edit
      case NameEdit(text) =>
        subjects := subjects[index := subjects[index].(subjectName := text)];
      case MarkEdit(input) =>
        var marks := ParseInt(input);
        if marks.Num? && marks.n >= 0 && marks.n <= 100 {
          subjects := subjects[index := subjects[index].(mark := marks)];
        }
    }
  }
}
