/** Values shared by the pages of the student-management front end: the
    student record as the backend returns it, marks, grades, request
    outcomes, the one-slot search debounce and the index-keyed list removal
    that two editors use. */
module Common {

  datatype Option<T> = None | Some(value: T)

  /** A numeric field read from a record or produced by `parseInt`: a number,
      or a value (undefined, NaN) that is falsy and fails every comparison. */
  datatype Mark = Num(n: int) | Missing

  /** The text of an `<input type="number">`: empty, or an integer literal. */
  datatype NumberInput = Blank | Entered(n: int)

  /** One row of a student's subject list; the index in the list is its only key. */
  datatype Subject = Subject(subjectName: string, mark: Mark)

  /** A student record as the backend returns it; any field may be absent. */
  datatype Student = Student(
    id: string,
    regNo: Option<string>,
    name: Option<string>,
    email: Option<string>,
    gender: Option<string>,
    phone: Option<string>,
    department: Option<string>,
    subjects: Option<seq<Subject>>)

  /** Outcome of a write request: success, or failure with the server's
      `message` field when the response carried one. */
  datatype Outcome = Ok | Failed(message: Option<string>)

  /** Outcome of a read request: the response body, or failure with the
      server's `message` field when the response carried one. */
  datatype Response<T> = Received(body: T) | Refused(message: Option<string>)

  /** The grade letters used by both grading scales. */
  datatype Grade = S | APlus | A | BPlus | B | C | D | F

  /** Position of a grade in the order F < D < C < B < B+ < A < A+ < S. */
  function Rank(g: Grade): nat
  {
    match g
    case F => 0
    case D => 1
    case C => 2
    case B => 3
    case BPlus => 4
    case A => 5
    case APlus => 6
    case S => 7
  }

  /** The text a page shows for a grade. */
  function Label(g: Grade): string
  {
    match g
    case S => "S"
    case APlus => "A+"
    case A => "A"
    case BPlus => "B+"
    case B => "B"
    case C => "C"
    case D => "D"
    case F => "F"
  }

  /** `err.response?.data?.message || fallback`: the server's message unless
      it is absent or empty. The text shown is always one of the two, a
      non-empty server message takes precedence, and with a non-empty
      fallback a failure never shows an empty message. */
  function ErrorText(message: Option<string>, fallback: string): (t: string)
    ensures t == fallback || (message.Some? && t == message.value)
    ensures message.Some? && message.value != "" ==> t == message.value
    ensures fallback != "" ==> t != ""
  {
    if message.Some? && message.value != "" then message.value else fallback
  }

  /** `x || fallback` for a count read from a response: 0 and an absent
      count are both falsy. */
  function CountOr(x: Option<nat>, fallback: int): (r: int)
    ensures r == fallback || (x.Some? && r == x.value)
    ensures x.Some? && x.value > 0 ==> r == x.value
    ensures fallback >= 1 ==> r >= 1
    ensures fallback >= 0 ==> r >= 0
  {
    if x.Some? && x.value != 0 then x.value else fallback
  }

  /** `s.mark || 0`: an absent mark reads as 0. */
  function MarkOrZero(m: Mark): int
  {
    if m.Num? then m.n else 0
  }

  /** `subjects.reduce((sum, s) => sum + (s.mark || 0), 0)`. */
  function TotalOrZero(subjects: seq<Subject>): int
  {
    if subjects == [] then 0
    else TotalOrZero(subjects[..|subjects| - 1]) + MarkOrZero(subjects[|subjects| - 1].mark)
  }

  predicate AllNumeric(subjects: seq<Subject>)
  {
    forall i :: 0 <= i < |subjects| ==> subjects[i].mark.Num?
  }

  /** Every mark is present and lies in 0..100, as the editors enter them. */
  predicate MarksInRange(subjects: seq<Subject>)
  {
    forall i :: 0 <= i < |subjects| ==> subjects[i].mark.Num? && 0 <= subjects[i].mark.n <= 100
  }

  /** With every mark in 0..100 the total lies between 0 and 100 per subject. */
  lemma {:induction false} TotalInRange(subjects: seq<Subject>)
    requires MarksInRange(subjects)
    ensures 0 <= TotalOrZero(subjects) <= 100 * |subjects|
  {
    if subjects != [] {
      var init := subjects[..|subjects| - 1];
      assert MarksInRange(init) by {
        forall i | 0 <= i < |init| ensures init[i].mark.Num? && 0 <= init[i].mark.n <= 100 {
          assert init[i] == subjects[i];
        }
      }
      TotalInRange(init);
    }
  }

  /** The quotient of a total of in-range marks by their count lies in
      0..100. */
  lemma QuotientInRange(t: int, n: int)
    requires n > 0 && 0 <= t <= 100 * n
    ensures 0.0 <= t as real / n as real <= 100.0
  {
    var q, r := t as real / n as real, n as real;
    assert q * r == t as real;
    if q > 100.0 {
      assert (q - 100.0) * r > 0.0;
      assert q * r - 100.0 * r > 0.0;
    }
  }

  /** `s.filter((_, i) => i !== index)`: drops the element at `index` and
      keeps the rest in order; an index outside the list drops nothing. */
  function RemoveAt<T>(s: seq<T>, index: int): (r: seq<T>)
    ensures 0 <= index < |s| ==> r == s[..index] + s[index + 1..]
    ensures !(0 <= index < |s|) ==> r == s
  {
    if s == [] then []
    else
      var init := RemoveAt(s[..|s| - 1], index);
      if |s| - 1 == index then init else init + [s[|s| - 1]]
  }

  /** Element-wise reading of RemoveAt: length one less, the prefix kept and
      the suffix shifted down by one. */
  lemma RemoveAtShifts<T>(s: seq<T>, index: int)
    requires 0 <= index < |s|
    ensures |RemoveAt(s, index)| == |s| - 1
    ensures forall j :: 0 <= j < index ==> RemoveAt(s, index)[j] == s[j]
    ensures forall j :: index <= j < |s| - 1 ==> RemoveAt(s, index)[j] == s[j + 1]
  {
  }

  /** The slot of a 500 ms search debounce: no timer, or one timer armed with
      the latest text. Time itself is not modelled; firing is an event. */
  datatype Debounce = Idle | Pending(value: string)

  /** The slot after a run of keystrokes: each clears the previous timer and
      arms a new one with its own text. */
  function AfterKeystrokes(d: Debounce, typed: seq<string>): (r: Debounce)
    ensures typed == [] ==> r == d
    ensures typed != [] ==> r == Pending(typed[|typed| - 1])
    decreases |typed|
  {
    if typed == [] then d else AfterKeystrokes(Pending(typed[0]), typed[1..])
  }
}
