/** The student's own profile page: view, edit, cancel and save of the four
    editable fields, and the passed/failed subject counts. */
module StudentProfile {
  import opened Common

  /** The profile's text inputs (`e.target.name`). */
  datatype ProfileField = NameField | EmailField | GenderField | PhoneField

  /** `{...prev, [name]: value}`: the named field takes the value. */
  function WithField(s: Student, field: ProfileField, value: string): (r: Student)
    ensures r.name == (if field == NameField then Some(value) else s.name)
    ensures r.email == (if field == EmailField then Some(value) else s.email)
    ensures r.gender == (if field == GenderField then Some(value) else s.gender)
    ensures r.phone == (if field == PhoneField then Some(value) else s.phone)
    ensures r.id == s.id && r.regNo == s.regNo && r.department == s.department && r.subjects == s.subjects
  {
    match field
    case NameField => s.(name := Some(value))
    case EmailField => s.(email := Some(value))
    case GenderField => s.(gender := Some(value))
    case PhoneField => s.(phone := Some(value))
  }

  /** The body of the profile update request. */
  datatype ProfileUpdate = ProfileUpdate(
    name: Option<string>,
    email: Option<string>,
    phone: Option<string>,
    gender: Option<string>)

  function SavePayload(s: Student): ProfileUpdate
  {
    ProfileUpdate(s.name, s.email, s.phone, s.gender)
  }

  /** The update carries exactly the four editable fields: whatever the
      record's id, registration number, department or subjects, the payload
      is the same, and each editable field reaches it unchanged. */
  lemma SavePayloadFields(s: Student, t: Student)
    ensures s.name == t.name && s.email == t.email && s.phone == t.phone && s.gender == t.gender
            <==> SavePayload(s) == SavePayload(t)
    ensures SavePayload(s).name == s.name && SavePayload(s).email == s.email
    ensures SavePayload(s).phone == s.phone && SavePayload(s).gender == s.gender
  {
  }

  /** An edit of one field reaches the payload and leaves the other three
      as they were. */
  lemma EditReachesPayload(s: Student, field: ProfileField, value: string)
    ensures var p := SavePayload(WithField(s, field, value));
            && p.name == (if field == NameField then Some(value) else s.name)
            && p.email == (if field == EmailField then Some(value) else s.email)
            && p.phone == (if field == PhoneField then Some(value) else s.phone)
            && p.gender == (if field == GenderField then Some(value) else s.gender)
  {
  }

  /** `subjects?.filter(s => s.mark >= 40).length`; an absent mark fails
      the comparison. */
  function Passed(rows: seq<Subject>): nat
  {
    if rows == [] then 0
    else (if rows[0].mark.Num? && rows[0].mark.n >= 40 then 1 else 0) + Passed(rows[1..])
  }

  /** `subjects?.filter(s => s.mark < 40).length`; an absent mark fails
      this comparison too. */
  function Failed(rows: seq<Subject>): nat
  {
    if rows == [] then 0
    else (if rows[0].mark.Num? && rows[0].mark.n < 40 then 1 else 0) + Failed(rows[1..])
  }

  /** The counts as shown: `... .length || 0`, so 0 without subjects. */
  function PassedCount(subjects: Option<seq<Subject>>): nat
  {
    if subjects.Some? then Passed(subjects.value) else 0
  }

  function FailedCount(subjects: Option<seq<Subject>>): nat
  {
    if subjects.Some? then Failed(subjects.value) else 0
  }

  /** Passed and failed never add up to more than the rows, and add up to
      exactly the rows precisely when every mark is a number. */
  lemma {:induction false} PassedFailedPartition(rows: seq<Subject>)
    ensures Passed(rows) + Failed(rows) <= |rows|
    ensures Passed(rows) + Failed(rows) == |rows| <==> AllNumeric(rows)
  {
    if rows != [] {
      PassedFailedPartition(rows[1..]);
      if AllNumeric(rows) {
        assert AllNumeric(rows[1..]) by {
          forall i | 0 <= i < |rows[1..]|
            ensures rows[1..][i].mark.Num?
          {
            assert rows[1..][i] == rows[i + 1];
          }
        }
      } else if rows[0].mark.Num? {
        var i :| 0 <= i < |rows| && !rows[i].mark.Num?;
        assert rows[1..][i - 1] == rows[i];
      }
    }
  }

  /** The three summary cards: with numeric marks, passed plus failed is the
      total subject count. */
  lemma SummaryCardsAgree(subjects: Option<seq<Subject>>)
    requires subjects.Some? ==> AllNumeric(subjects.value)
    ensures PassedCount(subjects) + FailedCount(subjects) == (if subjects.Some? then |subjects.value| else 0)
  {
    if subjects.Some? {
      PassedFailedPartition(subjects.value);
    }
  }

  /** The page's state once the record is loaded. */
  class ProfilePage {
    var student: Student
    var editedStudent: Student
    var isEditing: bool
    var error: Option<string>
    var saving: bool
    var successMessage: string

    /** The state after a successful `fetchStudentData`: both copies are
      the fetched record. */
    constructor (loaded: Student)
      ensures student == loaded && editedStudent == loaded
      ensures !isEditing && error.None? && !saving && successMessage == ""
    {
      student := loaded;
      editedStudent := loaded;
      isEditing := false;
      error := None;
      saving := false;
      successMessage := "";
    }

    /** With an error set the page renders only the error screen. */
    predicate ShowsErrorScreen()
      reads this
    {
      error.Some?
    }

    /** `handleEdit`: start editing a fresh copy of the record. */
    method Edit()
      modifies this`isEditing, this`editedStudent, this`successMessage
      ensures isEditing && editedStudent == student && successMessage == ""
    {
      isEditing := true;
      editedStudent := student;
      successMessage := "";
    }

    /** `handleCancel`: drop the edits and the error. */
    method Cancel()
      modifies this`isEditing, this`editedStudent, this`error
      ensures !isEditing && editedStudent == student && error.None?
    {
      isEditing := false;
      editedStudent := student;
      error := None;
    }

    /** `handleInputChange`. */
    method InputChange(field: ProfileField, value: string)
      modifies this`editedStudent
      ensures editedStudent == WithField(old(editedStudent), field, value)
    {
      editedStudent := WithField(editedStudent, field, value);
    }

    /** `handleSave`: send the four fields; on success the edited record
      becomes the record and editing ends; on failure the message is kept
      and, the error being set, the page shows its error screen. */
    method Save(put: Outcome) returns (payload: ProfileUpdate)
      modifies this`student, this`isEditing, this`error, this`saving, this`successMessage
      ensures payload == SavePayload(editedStudent)
      ensures !saving
      ensures put.Ok? ==>
                student == editedStudent && !isEditing && error.None?
                && successMessage == "Profile updated successfully!"
      ensures put.Failed? ==>
                student == old(student) && isEditing == old(isEditing) && successMessage == old(successMessage)
                && error == Some(ErrorText(put.message, "Failed to update profile")) && ShowsErrorScreen()
    {
      saving := true;
      error := None;
      payload := SavePayload(editedStudent);
      if put.Ok? {
        student := editedStudent;
        isEditing := false;
        successMessage := "Profile updated successfully!";
      } else {
        error := Some(ErrorText(put.message, "Failed to update profile"));
      }
      saving := false;
    }

    /** The three-second timer after a successful save. */
    method SuccessTimeout()
      modifies this`successMessage
      ensures successMessage == ""
    {
      successMessage := "";
    }
  }

  /** Edit, change fields, cancel: the record and the edit copy are back
      where they were. */
  method CancelDiscardsEdits(p: ProfilePage, field: ProfileField, value: string)
    modifies p
    ensures p.student == old(p.student) && p.editedStudent == old(p.student) && !p.isEditing
  {
    p.Edit();
    p.InputChange(field, value);
    p.Cancel();
  }

  /** Edit, change a field, save successfully: the record holds the new
      value and the request carried it. */
  method SaveKeepsEdit(p: ProfilePage, field: ProfileField, value: string) returns (payload: ProfileUpdate)
    modifies p
    ensures p.student == WithField(old(p.student), field, value) && !p.isEditing
    ensures payload == SavePayload(WithField(old(p.student), field, value))
  {
    p.Edit();
    p.InputChange(field, value);
    payload := p.Save(Ok);
  }
}
