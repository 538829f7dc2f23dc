/** The registration form: six text fields, a local password check, one POST, and
    on success a cleared form and a delayed move to the login page. */
module Register {
  import opened Browser

  const PasswordMismatchMessage := "Passwords do not match!"
  const SuccessMessage := "Registration successful! Please check your email for confirmation."
  const FallbackMessage := "Something went wrong!"
  const ConnectFailedMessage := "Failed to connect to the server!"
  const LoginPath := "/login"
  const RedirectDelayMs := 3000

  datatype Field = Username | FirstName | LastName | Email | Password | ConfirmPassword

  /** The form's `formData` object. */
  datatype FormData = FormData(username: string, firstName: string, lastName: string,
                               email: string, password: string, confirmPassword: string)
  {
    function Get(f: Field): string {
      match f
      case Username => username
      case FirstName => firstName
      case LastName => lastName
      case Email => email
      case Password => password
      case ConfirmPassword => confirmPassword
    }

    /** `{ ...formData, [name]: value }` */
    function With(f: Field, value: string): (r: FormData)
      ensures r.Get(f) == value
      ensures forall g :: g != f ==> r.Get(g) == Get(g)
    {
      match f
      case Username => this.(username := value)
      case FirstName => this.(firstName := value)
      case LastName => this.(lastName := value)
      case Email => this.(email := value)
      case Password => this.(password := value)
      case ConfirmPassword => this.(confirmPassword := value)
    }
  }

  const EmptyForm := FormData("", "", "", "", "", "")

  /** The server's field errors; each field error is a list of messages. */
  datatype RegisterFailure = RegisterFailure(username: Option<seq<string>>, email: Option<seq<string>>,
                                             password: Option<seq<string>>, detail: Option<string>)

  /** `list?.[0]`, as it enters a `||` chain. */
  function FirstOf(list: Option<seq<string>>): (r: string)
    ensures r != "" ==> list.Some? && |list.value| > 0 && r == list.value[0]
    ensures list.Some? && |list.value| > 0 ==> r == list.value[0]
    ensures list.None? || |list.value| == 0 ==> r == ""
  {
    if list.Some? && |list.value| > 0 then list.value[0] else ""
  }

  /** The message shown for a rejected registration: the first username error, else
      the first email error, else the first password error, else `detail`, else a
      fixed fallback. */
  function FailureMessage(f: RegisterFailure): (r: string)
    ensures r != ""
    ensures FirstOf(f.username) != "" ==> r == FirstOf(f.username)
    ensures FirstOf(f.username) == "" && FirstOf(f.email) != "" ==> r == FirstOf(f.email)
    ensures FirstOf(f.username) == "" && FirstOf(f.email) == "" && FirstOf(f.password) != "" ==>
      r == FirstOf(f.password)
    ensures FirstOf(f.username) == "" && FirstOf(f.email) == "" && FirstOf(f.password) == "" && Truthy(f.detail) ==>
      r == f.detail.value
    ensures FirstOf(f.username) == "" && FirstOf(f.email) == "" && FirstOf(f.password) == "" && !Truthy(f.detail) ==>
      r == FallbackMessage
  {
    var operands := [FirstOf(f.username), FirstOf(f.email), FirstOf(f.password), Text(f.detail), FallbackMessage];
    assert operands[1] == FirstOf(f.email) && operands[2] == FirstOf(f.password);
    assert operands[3] == Text(f.detail) && operands[4] != "";
    assert FirstOf(f.username) == "" ==> forall j :: 0 <= j < 1 ==> operands[j] == "";
    assert FirstOf(f.username) == "" && FirstOf(f.email) == "" ==> forall j :: 0 <= j < 2 ==> operands[j] == "";
    assert FirstOf(f.username) == "" && FirstOf(f.email) == "" && FirstOf(f.password) == "" ==>
      forall j :: 0 <= j < 3 ==> operands[j] == "";
    FirstTruthy(operands)
  }

  /** The navigation that `setTimeout` schedules. */
  datatype Redirect = Redirect(path: string, delayMs: nat)

  class RegisterForm {
    var formData: FormData
    var error: string
    var success: string
    var loading: bool

    constructor ()
      ensures formData == EmptyForm && error == "" && success == "" && !loading
    {
      formData, error, success, loading := EmptyForm, "", "", false;
    }

    /** `handleChange`: one field takes the typed value, the others keep theirs. */
    method HandleChange(f: Field, value: string)
      modifies this
      ensures formData.Get(f) == value
      ensures forall g :: g != f ==> formData.Get(g) == old(formData).Get(g)
      ensures error == old(error) && success == old(success) && loading == old(loading)
    {
      formData := formData.With(f, value);
    }

    /** `handleSubmit`. Old messages are cleared first. Mismatched passwords stop it
        before any request. Otherwise the whole form is posted: an ok reply shows the
        success message, empties every field and schedules the move to the login
        page; a non-ok reply shows the first server error in precedence order; a
        rejected request shows a connection message. Loading is over on every path. */
    method HandleSubmit(reply: Reply<(), RegisterFailure>) returns (request: Option<FormData>, redirect: Option<Redirect>)
      modifies this
      ensures !loading
      ensures old(formData.password) != old(formData.confirmPassword) ==>
        request == None && redirect == None && error == PasswordMismatchMessage && success == "" &&
        formData == old(formData)
      ensures old(formData.password) == old(formData.confirmPassword) ==> request == Some(old(formData))
      ensures old(formData.password) == old(formData.confirmPassword) && reply.Ok? ==>
        success == SuccessMessage && error == "" && formData == EmptyForm &&
        redirect == Some(Redirect(LoginPath, RedirectDelayMs))
      ensures old(formData.password) == old(formData.confirmPassword) && reply.NotOk? ==>
        error == FailureMessage(reply.err) && success == "" && formData == old(formData) && redirect == None
      ensures old(formData.password) == old(formData.confirmPassword) && reply.Thrown? ==>
        error == ConnectFailedMessage && success == "" && formData == old(formData) && redirect == None
    {
      error := "";
      success := "";
      loading := true;
      redirect := None;
      if formData.password != formData.confirmPassword {
        error := PasswordMismatchMessage;
        loading := false;
        return None, None;
      }
      request := Some(formData);
      match reply {
        case Ok(_) =>
          success := SuccessMessage;
          formData := EmptyForm;
          redirect := Some(Redirect(LoginPath, RedirectDelayMs));
        case NotOk(_, data) =>
          error := FailureMessage(data);
        case Thrown =>
          error := ConnectFailedMessage;
      }
      loading := false;
    }
  }
}
