/** The login form: one POST of the credentials; success stores the session and
    goes home, failure shows the server's `detail` or a fixed message. */
module Login {
  import opened Browser
  import opened SessionStore

  const InvalidCredentialsMessage := "Invalid credentials"
  const LoginThrownMessage := "Something went wrong. Please try again."
  const HomePath := "/"

  /** The error body of a rejected login; `detail` may be missing. */
  datatype LoginFailure = LoginFailure(detail: Option<string>)

  /** `POST /account/login/` with `{username, password}`. */
  datatype LoginRequest = LoginRequest(username: string, password: string)

  /** `data.detail || "Invalid credentials"` */
  function FailureMessage(f: LoginFailure): (r: string)
    ensures r != ""
    ensures Truthy(f.detail) ==> r == f.detail.value
    ensures !Truthy(f.detail) ==> r == InvalidCredentialsMessage
  {
    var operands := [Text(f.detail), InvalidCredentialsMessage];
    assert operands[1] != "";
    FirstTruthy(operands)
  }

  class LoginForm {
    var username: string
    var password: string
    var error: string
    var loading: bool

    constructor ()
      ensures username == "" && password == "" && error == "" && !loading
    {
      username, password, error, loading := "", "", "", false;
    }

    method SetUsername(value: string)
      modifies this
      ensures username == value
      ensures password == old(password) && error == old(error) && loading == old(loading)
    {
      username := value;
    }

    method SetPassword(value: string)
      modifies this
      ensures password == value
      ensures username == old(username) && error == old(error) && loading == old(loading)
    {
      password := value;
    }

    /** `handleSubmit`: the request always goes out with the typed credentials. An ok
        reply writes exactly the three session keys and navigates to "/"; a non-ok
        reply or a rejected request leaves storage alone and sets the error. The error
        of an earlier attempt is cleared first, and loading is over on every path. */
    method HandleSubmit(store: Store, reply: Reply<Credentials, LoginFailure>)
      returns (request: LoginRequest, navigateTo: Option<string>)
      modifies this, store
      ensures request == LoginRequest(old(username), old(password))
      ensures username == old(username) && password == old(password)
      ensures !loading
      ensures store.items == if reply.Ok? then SaveLogin(old(store.items), reply.body) else old(store.items)
      ensures navigateTo == if reply.Ok? then Some(HomePath) else None
      ensures reply.Ok? ==> error == ""
      ensures reply.NotOk? ==> error == FailureMessage(reply.err)
      ensures reply.Thrown? ==> error == LoginThrownMessage
    {
      loading := true;
      error := "";
      request := LoginRequest(username, password);
      navigateTo := None;
      match reply {
        case Ok(data) =>
          store.SetItem(TokenKey, data.token);
          store.SetItem(SuperuserKey, BoolText(data.isSuperuser));
          store.SetItem(StaffKey, BoolText(data.isStaff));
          navigateTo := Some(HomePath);
        case NotOk(_, data) =>
          error := FailureMessage(data);
        case Thrown =>
          error := LoginThrownMessage;
      }
      loading := false;
    }
  }
}
