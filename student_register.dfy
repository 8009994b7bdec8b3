/** Student self-registration: the form, its two client-side checks in
    order, the request, and the automatic login on success. */
module StudentRegister {
  import opened Common
  import AuthContext

  datatype RegisterForm = RegisterForm(
    name: string,
    email: string,
    regNo: string,
    password: string,
    confirmPassword: string,
    gender: string,
    phone: string,
    department: string)

  /** The form's inputs (`e.target.name`). */
  datatype RegisterField =
    NameField | EmailField | RegNoField | PasswordField | ConfirmPasswordField
    | GenderField | PhoneField | DepartmentField

  /** `{...formData, [name]: value}`. */
  function WithField(f: RegisterForm, field: RegisterField, value: string): (r: RegisterForm)
    ensures r.name == (if field == NameField then value else f.name)
    ensures r.email == (if field == EmailField then value else f.email)
    ensures r.regNo == (if field == RegNoField then value else f.regNo)
    ensures r.password == (if field == PasswordField then value else f.password)
    ensures r.confirmPassword == (if field == ConfirmPasswordField then value else f.confirmPassword)
    ensures r.gender == (if field == GenderField then value else f.gender)
    ensures r.phone == (if field == PhoneField then value else f.phone)
    ensures r.department == (if field == DepartmentField then value else f.department)
  {
    match field
    case NameField => f.(name := value)
    case EmailField => f.(email := value)
    case RegNoField => f.(regNo := value)
    case PasswordField => f.(password := value)
    case ConfirmPasswordField => f.(confirmPassword := value)
    case GenderField => f.(gender := value)
    case PhoneField => f.(phone := value)
    case DepartmentField => f.(department := value)
  }

  /** The registration request body: the form without the confirmation. */
  datatype RegisterPayload = RegisterPayload(
    name: string,
    email: string,
    regNo: string,
    password: string,
    gender: string,
    phone: string,
    department: string)

  function Payload(f: RegisterForm): RegisterPayload
  {
    RegisterPayload(f.name, f.email, f.regNo, f.password, f.gender, f.phone, f.department)
  }

  /** The confirmation field never reaches the request, and every other
      field does. */
  lemma PayloadOmitsConfirmation(f: RegisterForm, c: string)
    ensures Payload(f.(confirmPassword := c)) == Payload(f)
    ensures Payload(f).password == f.password && Payload(f).regNo == f.regNo
  {
  }

  /** The client-side checks in order: the mismatch first, then the length;
      None when the form may be sent. */
  function Validate(f: RegisterForm): (problem: Option<string>)
    ensures problem.None? <==> f.password == f.confirmPassword && |f.password| >= 6
    ensures f.password != f.confirmPassword ==> problem == Some("Passwords do not match")
    ensures f.password == f.confirmPassword && |f.password| < 6 ==>
              problem == Some("Password must be at least 6 characters")
  {
    if f.password != f.confirmPassword then Some("Passwords do not match")
    else if |f.password| < 6 then Some("Password must be at least 6 characters")
    else None
  }

  /** The success body of the registration request. */
  datatype SignedIn = SignedIn(user: AuthContext.User, token: string)

  class RegisterPage {
    var form: RegisterForm
    var loading: bool
    var error: string

    constructor ()
      ensures form == RegisterForm("", "", "", "", "", "", "", "") && !loading && error == ""
    {
      form := RegisterForm("", "", "", "", "", "", "", "");
      loading := false;
      error := "";
    }

    /** `handleChange`: the named field changes and the error clears. */
    method Change(field: RegisterField, value: string)
      modifies this`form, this`error
      ensures form == WithField(old(form), field, value) && error == ""
    {
      form := WithField(form, field, value);
      error := "";
    }

    /** `handleSubmit`: a failed check sets its message and sends nothing;
      otherwise the request is sent, and its success signs the student in
      and goes to the student view, while its failure shows the message.
      `loading` is off once a request has completed. */
    method Submit(auth: AuthContext.AuthProvider, response: Response<SignedIn>)
      returns (request: Option<RegisterPayload>, navigateTo: Option<string>)
      modifies this`loading, this`error
      modifies auth`user, auth`token, auth`storedToken, auth`storedUser
      ensures request.Some? <==> Validate(form).None?
      ensures request.Some? ==> request.value == Payload(form) && !loading
      ensures Validate(form).Some? ==>
                error == Validate(form).value && navigateTo.None? && loading == old(loading)
                && unchanged(auth)
      ensures request.Some? && response.Received? ==>
                auth.user == Some(response.body.user) && auth.token == Some(response.body.token)
                && auth.storedUser == Some(response.body.user) && auth.storedToken == Some(response.body.token)
                && navigateTo == Some("/student-view") && error == ""
      ensures request.Some? && response.Refused? ==>
                error == ErrorText(response.message, "Registration failed. Please try again.")
                && navigateTo.None? && unchanged(auth)
    {
      error := "";
      request := None;
      navigateTo := None;
      var problem := Validate(form);
      if problem.Some? {
        error := problem.value;
        return;
      }
      loading := true;
      request := Some(Payload(form));
      if response.Received? {
        auth.Login(response.body.user, response.body.token);
        navigateTo := Some("/student-view");
      } else {
        error := ErrorText(response.message, "Registration failed. Please try again.");
      }
      loading := false;
    }
  }

  /** Registering with a non-empty token leaves the store signed in. */
  method RegisterSignsIn(page: RegisterPage, auth: AuthContext.AuthProvider, body: SignedIn)
    requires page.form.password == page.form.confirmPassword && |page.form.password| >= 6
    requires body.token != ""
    modifies page, auth
    ensures auth.IsAuthenticated()
  {
    var _, _ := page.Submit(auth, Received(body));
  }
}
