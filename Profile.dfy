/** The profile page: fetched once on mount, shown read-only until Edit is pressed,
    and saved back with a PUT of the four form fields. */
module Profile {
  import opened Browser
  import opened SessionStore

  const NoTokenMessage := "Please login first!"
  const ForbiddenMessage := "Access forbidden. Please login again."
  const FetchFailedMessage := "Failed to fetch profile data!"
  const SaveNoTokenMessage := "You must be logged in to update your profile!"
  const SavedMessage := "Profile updated successfully!"
  const SaveFailedMessage := "Failed to update profile!"

  const SuperuserRole := "Superuser (Admin) \U{1F6E0}\U{FE0F}"
  const StaffRole := "Staff \U{1F454}"
  const UserRole := "User \U{1F464}"

  /** The server's profile record. */
  datatype ProfileData = ProfileData(username: string, firstName: string, lastName: string, email: string,
                                     isSuperuser: bool, isStaff: bool)

  datatype Field = Username | FirstName | LastName | Email

  /** The page's `formData`: the four fields that are shown and sent back. */
  datatype ProfileForm = ProfileForm(username: string, firstName: string, lastName: string, email: string)
  {
    function Get(f: Field): string {
      match f
      case Username => username
      case FirstName => firstName
      case LastName => lastName
      case Email => email
    }

    /** `{ ...formData, [name]: value }` */
    function With(f: Field, value: string): (r: ProfileForm)
      ensures r.Get(f) == value
      ensures forall g :: g != f ==> r.Get(g) == Get(g)
    {
      match f
      case Username => this.(username := value)
      case FirstName => this.(firstName := value)
      case LastName => this.(lastName := value)
      case Email => this.(email := value)
    }
  }

  const EmptyForm := ProfileForm("", "", "", "")

  /** The form filled from a fetched profile: exactly its four text fields. */
  function FormOf(d: ProfileData): (r: ProfileForm)
    ensures r.Get(Username) == d.username && r.Get(FirstName) == d.firstName
    ensures r.Get(LastName) == d.lastName && r.Get(Email) == d.email
  {
    ProfileForm(d.username, d.firstName, d.lastName, d.email)
  }

  /** The role badge: superuser outranks staff, and plain user is the default. */
  function RoleLabel(d: ProfileData): (r: string)
    ensures d.isSuperuser ==> r == SuperuserRole
    ensures !d.isSuperuser && d.isStaff ==> r == StaffRole
    ensures !d.isSuperuser && !d.isStaff ==> r == UserRole
  {
    if d.isSuperuser then SuperuserRole else if d.isStaff then StaffRole else UserRole
  }

  /** `GET /account/profile/` and `PUT /account/profile/`, each with `Token <token>`. */
  datatype ProfileRequest =
    | GetProfile(token: string)
    | PutProfile(token: string, form: ProfileForm)

  class ProfilePage {
    var profile: Option<ProfileData>
    var editMode: bool
    var formData: ProfileForm
    var msg: string
    var err: string
    var loading: bool

    constructor ()
      ensures profile == None && !editMode && formData == EmptyForm
      ensures msg == "" && err == "" && !loading
    {
      profile, editMode, formData := None, false, EmptyForm;
      msg, err, loading := "", "", false;
    }

    /** The mount effect. Without a token nothing is fetched. A 403 first sets the
        forbidden message, but the request then fails like every other non-ok reply,
        so the message left is always the generic one. An ok reply fills the profile
        and the form. */
    method LoadProfile(store: Store, reply: Reply<ProfileData, ()>) returns (request: Option<ProfileRequest>)
      modifies this
      ensures editMode == old(editMode) && msg == old(msg) && loading == old(loading)
      ensures !HasToken(store.items) ==>
        request == None && err == NoTokenMessage && profile == old(profile) && formData == old(formData)
      ensures HasToken(store.items) ==> request == Some(GetProfile(store.items[TokenKey]))
      ensures HasToken(store.items) && !reply.Ok? ==>
        err == FetchFailedMessage && profile == old(profile) && formData == old(formData)
      ensures HasToken(store.items) && reply.Ok? ==>
        err == old(err) && profile == Some(reply.body) && formData == FormOf(reply.body)
    {
      var token := Lookup(store.items, TokenKey);
      if !Truthy(token) {
        err := NoTokenMessage;
        return None;
      }
      request := Some(GetProfile(token.value));
      match reply {
        case Ok(data) =>
          profile := Some(data);
          formData := FormOf(data);
        case NotOk(status, _) =>
          if status == 403 {
            err := ForbiddenMessage;
          }
          err := FetchFailedMessage;
        case Thrown =>
          err := FetchFailedMessage;
      }
    }

    /** `handleChange`: one field takes the typed value, the others keep theirs.
        Only the first-name and last-name inputs have a change handler, and both
        are disabled outside edit mode; username and email are shown read-only. */
    method HandleChange(f: Field, value: string)
      requires editMode && (f == FirstName || f == LastName)
      modifies this
      ensures formData.Get(f) == value
      ensures forall g :: g != f ==> formData.Get(g) == old(formData).Get(g)
      ensures formData.username == old(formData.username) && formData.email == old(formData.email)
      ensures profile == old(profile) && editMode == old(editMode)
      ensures msg == old(msg) && err == old(err) && loading == old(loading)
    {
      formData := formData.With(f, value);
    }

    /** Edit Profile and Cancel switch edit mode; Cancel keeps the edited form. */
    method SetEditMode(on: bool)
      modifies this
      ensures editMode == on
      ensures profile == old(profile) && formData == old(formData)
      ensures msg == old(msg) && err == old(err) && loading == old(loading)
    {
      editMode := on;
    }

    /** `handleSave`. Without a token: only the error changes, no request. Otherwise
        the messages are cleared and the form is sent: an ok reply replaces the
        profile, shows the saved message and leaves edit mode; a failure shows the
        save error and stays in edit mode. Loading is over on both paths. */
    method HandleSave(store: Store, reply: Reply<ProfileData, ()>) returns (request: Option<ProfileRequest>)
      modifies this
      ensures formData == old(formData)
      ensures !HasToken(store.items) ==>
        request == None && err == SaveNoTokenMessage && profile == old(profile) &&
        editMode == old(editMode) && msg == old(msg) && loading == old(loading)
      ensures HasToken(store.items) ==>
        request == Some(PutProfile(store.items[TokenKey], old(formData))) && !loading
      ensures HasToken(store.items) && reply.Ok? ==>
        profile == Some(reply.body) && msg == SavedMessage && err == "" && !editMode
      ensures HasToken(store.items) && !reply.Ok? ==>
        profile == old(profile) && msg == "" && err == SaveFailedMessage && editMode == old(editMode)
    {
      var token := Lookup(store.items, TokenKey);
      if !Truthy(token) {
        err := SaveNoTokenMessage;
        return None;
      }
      loading := true;
      err := "";
      msg := "";
      request := Some(PutProfile(token.value, formData));
      match reply {
        case Ok(updated) =>
          profile := Some(updated);
          msg := SavedMessage;
          editMode := false;
        case NotOk(_, _) =>
          err := SaveFailedMessage;
        case Thrown =>
          err := SaveFailedMessage;
      }
      loading := false;
    }
  }
}
