/** The admin's edit form for one student: the loaded form, the subject
    rows edited by index, and the two update requests of a submit. */
module EditStudent {
  import opened Common
  import ManageSubjects

  /** `formData`: the editable fields, a new password (empty means keep the
      old one) and the subject rows. */
  datatype EditForm = EditForm(
    name: string,
    email: string,
    gender: string,
    phone: string,
    department: string,
    password: string,
    subjects: seq<Subject>)

  /** `value || ""` for a text field of the fetched record. */
  function TextOr(field: Option<string>): string
  {
    if field.Some? then field.value else ""
  }

  /** The form built from a fetched record: absent fields become "" or [],
      and the password always starts empty. */
  function LoadForm(student: Student): (f: EditForm)
    ensures f.password == ""
    ensures student.subjects.None? ==> f.subjects == []
    ensures student.subjects.Some? ==> f.subjects == student.subjects.value
    ensures f.name == TextOr(student.name) && f.email == TextOr(student.email)
    ensures f.gender == TextOr(student.gender) && f.phone == TextOr(student.phone)
    ensures f.department == TextOr(student.department)
  {
    EditForm(
      TextOr(student.name), TextOr(student.email), TextOr(student.gender),
      TextOr(student.phone), TextOr(student.department), "",
      if student.subjects.Some? then student.subjects.value else [])
  }

  /** The form's text inputs (`e.target.name`). */
  datatype FormField = NameField | EmailField | GenderField | PhoneField | DepartmentField | PasswordField

  /** `handleChange`: the named field takes the input's value. */
  function WithField(f: EditForm, field: FormField, value: string): (r: EditForm)
    ensures r.subjects == f.subjects
    ensures r.name == (if field == NameField then value else f.name)
    ensures r.email == (if field == EmailField then value else f.email)
    ensures r.gender == (if field == GenderField then value else f.gender)
    ensures r.phone == (if field == PhoneField then value else f.phone)
    ensures r.department == (if field == DepartmentField then value else f.department)
    ensures r.password == (if field == PasswordField then value else f.password)
  {
    match field
    case NameField => f.(name := value)
    case EmailField => f.(email := value)
    case GenderField => f.(gender := value)
    case PhoneField => f.(phone := value)
    case DepartmentField => f.(department := value)
    case PasswordField => f.(password := value)
  }

  /** `addSubject`: one blank row `{subjectName: "", mark: 0}` at the end. */
  function AddSubject(subjects: seq<Subject>): (r: seq<Subject>)
    ensures |r| == |subjects| + 1
    ensures r[..|subjects|] == subjects
    ensures r[|subjects|] == Subject("", Num(0))
  {
    subjects + [Subject("", Num(0))]
  }

  /** `Number` of a number input: an empty input converts to 0. */
  function ToNumber(input: NumberInput): Mark
  {
    if input.Entered? then Num(input.n) else Num(0)
  }

  /** The two subject editors read a mark input differently: this form's
      `Number` never yields NaN and turns an empty input into 0, where the
      subject editor's `parseInt` yields NaN; on an entered number they
      agree. */
  lemma MarkInputsCompared(input: NumberInput)
    ensures ToNumber(input).Num?
    ensures ManageSubjects.ParseInt(input).Missing? <==> input.Blank?
    ensures input.Blank? ==> ToNumber(input) == Num(0)
    ensures input.Entered? ==> ToNumber(input) == ManageSubjects.ParseInt(input) == Num(input.n)
  {
  }

  /** One keystroke in a subject row. */
  datatype SubjectEdit = NameEdit(text: string) | MarkEdit(input: NumberInput)

  /** `handleSubjectChange(index, field, value)`: only the named field of row
      `index` changes, and a mark is taken as typed, with no range check. */
  method SubjectChange(subjects: array<Subject>, index: nat, edit: SubjectEdit)
    requires index < subjects.Length
    modifies subjects
    ensures forall j :: 0 <= j < subjects.Length && j != index ==> subjects[j] == old(subjects[j])
    ensures edit.NameEdit? ==> subjects[index] == old(subjects[index]).(subjectName := edit.text)
    ensures edit.MarkEdit? ==> subjects[index] == old(subjects[index]).(mark := ToNumber(edit.input))
  {
    match edit
    case NameEdit(text) =>
      subjects[index] := subjects[index].(subjectName := text);
    case MarkEdit(input) =>
      subjects[index] := subjects[index].(mark := ToNumber(input));
  }

  /** The body of `PUT /students/:id`: the five fields always, the password
      only when one was typed. */
  datatype UpdatePayload = UpdatePayload(
    name: string,
    email: string,
    gender: string,
    phone: string,
    department: string,
    password: Option<string>)

  function BuildUpdate(f: EditForm): (p: UpdatePayload)
    ensures p.name == f.name && p.email == f.email && p.gender == f.gender
    ensures p.phone == f.phone && p.department == f.department
    ensures p.password.Some? <==> f.password != ""
    ensures p.password.Some? ==> p.password.value == f.password
  {
    UpdatePayload(f.name, f.email, f.gender, f.phone, f.department,
                  if f.password != "" then Some(f.password) else None)
  }

  /** Loading a record and submitting it untouched sends back each field
      the record has, "" for each it lacks, and no password. */
  lemma UntouchedSubmitSendsRecord(student: Student)
    ensures var p := BuildUpdate(LoadForm(student));
            && p.password.None?
            && (student.name.Some? ==> p.name == student.name.value)
            && (student.name.None? ==> p.name == "")
            && (student.email.Some? ==> p.email == student.email.value)
            && (student.email.None? ==> p.email == "")
            && (student.gender.Some? ==> p.gender == student.gender.value)
            && (student.gender.None? ==> p.gender == "")
            && (student.phone.Some? ==> p.phone == student.phone.value)
            && (student.phone.None? ==> p.phone == "")
            && (student.department.Some? ==> p.department == student.department.value)
            && (student.department.None? ==> p.department == "")
  {
  }

  /** The requests a submit issues, in order. */
  datatype Request = PutStudent(payload: UpdatePayload) | PutSubjects(subjects: seq<Subject>)

  /** The page's state. */
  class EditStudentPage {
    var form: EditForm
    var loading: bool
    var saving: bool
    var error: string

    constructor ()
      ensures form == EditForm("", "", "", "", "", "", []) && loading && !saving && error == ""
    {
      form := EditForm("", "", "", "", "", "", []);
      loading := true;
      saving := false;
      error := "";
    }

    /** `fetchStudent`: the form from the record, or the error message;
      loading ends either way. */
    method FetchStudent(response: Response<Student>)
      modifies this`form, this`loading, this`error
      ensures !loading
      ensures response.Received? ==> form == LoadForm(response.body) && error == old(error)
      ensures response.Refused? ==>
                form == old(form) && error == ErrorText(response.message, "Failed to fetch student")
    {
      loading := true;
      if response.Received? {
        form := LoadForm(response.body);
      } else {
        error := ErrorText(response.message, "Failed to fetch student");
      }
      loading := false;
    }

    method Change(field: FormField, value: string)
      modifies this`form
      ensures form == WithField(old(form), field, value)
    {
      form := WithField(form, field, value);
    }

    /** `handleSubjectChange`, on a copy of the row list. */
    method EditSubject(index: nat, edit: SubjectEdit)
      requires index < |form.subjects|
      modifies this`form
      ensures |form.subjects| == |old(form.subjects)|
      ensures form == old(form).(subjects := form.subjects)
      ensures forall j :: 0 <= j < |form.subjects| && j != index ==> form.subjects[j] == old(form.subjects[j])
      ensures edit.NameEdit? ==> form.subjects[index] == old(form.subjects[index]).(subjectName := edit.text)
      ensures edit.MarkEdit? ==> form.subjects[index] == old(form.subjects[index]).(mark := ToNumber(edit.input))
    {
      var rows := new Subject[|form.subjects|](j requires 0 <= j < |form.subjects| reads this => form.subjects[j]);
      SubjectChange(rows, index, edit);
      form := form.(subjects := rows[..]);
    }

    method AddSubjectRow()
      modifies this`form
      ensures form == old(form).(subjects := AddSubject(old(form.subjects)))
    {
      form := form.(subjects := AddSubject(form.subjects));
    }

    /** `removeSubject(index)`. */
    method RemoveSubjectRow(index: int)
      modifies this`form
      ensures form == old(form).(subjects := RemoveAt(old(form.subjects), index))
    {
      form := form.(subjects := RemoveAt(form.subjects, index));
    }

    /** `handleSubmit`: update the record; only if that succeeds and there
      are subject rows, update the subjects; navigate to the dashboard when
      every request issued succeeded. `saving` is off afterwards. */
    method Submit(studentPut: Outcome, subjectsPut: Outcome) returns (requests: seq<Request>, navigateTo: Option<string>)
      modifies this`saving, this`error
      ensures !saving
      ensures |requests| >= 1 && requests[0] == PutStudent(BuildUpdate(form))
      ensures |requests| == 2 <==> studentPut.Ok? && |form.subjects| > 0
      ensures |requests| == 2 ==> requests[1] == PutSubjects(form.subjects)
      ensures |requests| <= 2
      ensures navigateTo.Some? <==> studentPut.Ok? && (|form.subjects| == 0 || subjectsPut.Ok?)
      ensures navigateTo.Some? ==> navigateTo.value == "/dashboard" && error == ""
      ensures studentPut.Failed? ==> error == ErrorText(studentPut.message, "Failed to update student")
      ensures studentPut.Ok? && |form.subjects| > 0 && subjectsPut.Failed? ==>
                error == ErrorText(subjectsPut.message, "Failed to update student")
    {
      error := "";
      saving := true;
      requests := [PutStudent(BuildUpdate(form))];
      navigateTo := None;
      if studentPut.Failed? {
        error := ErrorText(studentPut.message, "Failed to update student");
      } else if |form.subjects| > 0 {
        requests := requests + [PutSubjects(form.subjects)];
        if subjectsPut.Failed? {
          error := ErrorText(subjectsPut.message, "Failed to update student");
        } else {
          navigateTo := Some("/dashboard");
        }
      } else {
        navigateTo := Some("/dashboard");
      }
      saving := false;
    }
  }
}
