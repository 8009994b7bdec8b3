/** A student's own view of their record: the average of their marks and
    the A+..F grading scale with A+ from 90, for the average and per row. */
module StudentView {
  import opened Common
  import ManageSubjects

  /** Lowest average of each grade on this page's scale; S is not on it. */
  function Threshold(g: Grade): int
  {
    match g
    case S => 90
    case APlus => 90
    case A => 80
    case BPlus => 70
    case B => 60
    case C => 50
    case D => 40
    case F => 0
  }

  /** Whether `avg` earns at least grade `g` on this page's scale. */
  predicate Reaches(avg: real, g: Grade)
  {
    g == F || (g != S && avg >= Threshold(g) as real)
  }

  /** `student?.subjects || []`. */
  function SubjectsOf(subjects: Option<seq<Subject>>): seq<Subject>
  {
    if subjects.Some? then subjects.value else []
  }

  /** `calculateAverage`, before rounding to two places: 0 without
      subjects, else the total (absent marks as 0) over the count. */
  function CalculateAverage(subjects: Option<seq<Subject>>): (avg: real)
    ensures SubjectsOf(subjects) == [] ==> avg == 0.0
    ensures SubjectsOf(subjects) != [] ==>
              avg * (|SubjectsOf(subjects)| as real) == TotalOrZero(SubjectsOf(subjects)) as real
  {
    var rows := SubjectsOf(subjects);
    if rows == [] then 0.0 else TotalOrZero(rows) as real / |rows| as real
  }

  /** With every mark in 0..100 the average lies in 0..100. */
  lemma AverageInRange(subjects: Option<seq<Subject>>)
    requires MarksInRange(SubjectsOf(subjects))
    ensures 0.0 <= CalculateAverage(subjects) <= 100.0
  {
    var rows := SubjectsOf(subjects);
    if rows != [] {
      TotalInRange(rows);
      QuotientInRange(TotalOrZero(rows), |rows|);
    }
  }

  /** `calculateGrade`: the best grade of this scale that the average
      reaches; never S. */
  function CalculateGrade(avg: real): (g: Grade)
    ensures g != S
    ensures Reaches(avg, g)
    ensures forall h :: Reaches(avg, h) ==> Rank(h) <= Rank(g)
  {
    if avg >= 90.0 then APlus
    else if avg >= 80.0 then A
    else if avg >= 70.0 then BPlus
    else if avg >= 60.0 then B
    else if avg >= 50.0 then C
    else if avg >= 40.0 then D
    else F
  }

  /** The grade of one table row: `subject.mark || 0` against the same
      thresholds, by its own if-chain. */
  function SubjectGrade(mark: Mark): (g: Grade)
    ensures g == CalculateGrade(MarkOrZero(mark) as real)
  {
    var m := if mark.Num? then mark.n else 0;
    if m >= 90 then APlus
    else if m >= 80 then A
    else if m >= 70 then BPlus
    else if m >= 60 then B
    else if m >= 50 then C
    else if m >= 40 then D
    else F
  }

  /** A higher average never earns a lower grade. */
  lemma CalculateGradeMonotone(a1: real, a2: real)
    requires a1 <= a2
    ensures Rank(CalculateGrade(a1)) <= Rank(CalculateGrade(a2))
  {
    assert Reaches(a2, CalculateGrade(a1));
  }

  /** A higher row mark never earns a lower row grade. */
  lemma SubjectGradeMonotone(m1: int, m2: int)
    requires m1 <= m2
    ensures Rank(SubjectGrade(Num(m1))) <= Rank(SubjectGrade(Num(m2)))
  {
    CalculateGradeMonotone(m1 as real, m2 as real);
  }

  /** The two scales differ: for the same mark this page never shows a
      better grade than the subject editor, and 85..89 is A+ there but A
      here. */
  lemma ScalesCompared(m: int)
    ensures Rank(SubjectGrade(Num(m))) <= Rank(ManageSubjects.GetGrade(Num(m)))
    ensures 85 <= m < 90 ==> ManageSubjects.GetGrade(Num(m)) == APlus && SubjectGrade(Num(m)) == A
    ensures m >= 90 ==> ManageSubjects.GetGrade(Num(m)) == S && SubjectGrade(Num(m)) == APlus
    ensures m < 85 ==> SubjectGrade(Num(m)) == ManageSubjects.GetGrade(Num(m))
  {
    assert ManageSubjects.Reaches(Num(m), SubjectGrade(Num(m)));
  }
}
