/** The session as it lives in `localStorage`: three string keys written by the
    login view, removed by the logout view and decoded by the navigation bar.
    The functions here are the storage effects that the Login, Logout and
    Navbar modules are proved against. */
module SessionStore {
  import opened Browser

  const TokenKey := "token"
  const SuperuserKey := "is_superuser"
  const StaffKey := "is_staff"

  /** The body of a successful login reply. */
  datatype Credentials = Credentials(token: string, isSuperuser: bool, isStaff: bool)

  /** The session as the navigation bar holds it: the raw token and two decoded flags. */
  datatype Session = Session(user: Option<string>, isSuperuser: bool, isStaff: bool)

  /** A view that needs a token asks `!localStorage.getItem("token")`. */
  predicate HasToken(items: map<string, string>)
    ensures HasToken(items) <==> TokenKey in items && items[TokenKey] != ""
  {
    Truthy(Lookup(items, TokenKey))
  }

  /** A stored role flag counts only when it is exactly the string that a login
      writes for `true`; a missing key or any other string reads as false. */
  function DecodeFlag(v: Option<string>): (b: bool)
    ensures b <==> v == Some(BoolText(true))
  {
    v == Some("true")
  }

  /** The three `setItem` calls of a successful login. */
  function SaveLogin(items: map<string, string>, c: Credentials): (r: map<string, string>)
    ensures r.Keys == items.Keys + {TokenKey, SuperuserKey, StaffKey}
    ensures r[TokenKey] == c.token
    ensures r[SuperuserKey] == BoolText(c.isSuperuser) && r[StaffKey] == BoolText(c.isStaff)
    ensures forall k :: k in items && k != TokenKey && k != SuperuserKey && k != StaffKey ==> r[k] == items[k]
  {
    items[TokenKey := c.token][SuperuserKey := BoolText(c.isSuperuser)][StaffKey := BoolText(c.isStaff)]
  }

  /** What one run of the logout view leaves in storage: nothing changes without a
      token; any reply removes all three keys; a rejected request removes only the
      token, so the two role flags survive. */
  function LogoutEffect(items: map<string, string>, reply: Reply<(), ()>): (r: map<string, string>)
    ensures !HasToken(r)
    ensures !HasToken(items) ==> r == items
    ensures HasToken(items) && !reply.Thrown? ==>
      r.Keys == items.Keys - {TokenKey, SuperuserKey, StaffKey}
    ensures HasToken(items) && reply.Thrown? ==> r.Keys == items.Keys - {TokenKey}
    ensures forall k :: k in r ==> k in items && r[k] == items[k]
  {
    if !HasToken(items) then items
    else if reply.Thrown? then items - {TokenKey}
    else items - {TokenKey} - {SuperuserKey} - {StaffKey}
  }

  /** The navigation bar's reading of storage. */
  function ReadSession(items: map<string, string>): (s: Session)
    ensures s.user == Lookup(items, TokenKey)
    ensures s.isSuperuser <==> SuperuserKey in items && items[SuperuserKey] == "true"
    ensures s.isStaff <==> StaffKey in items && items[StaffKey] == "true"
  {
    Session(Lookup(items, TokenKey),
            DecodeFlag(Lookup(items, SuperuserKey)),
            DecodeFlag(Lookup(items, StaffKey)))
  }

  /** A flag written as `String(b)` decodes back to `b`; a missing flag decodes to false. */
  lemma FlagRoundTrip(b: bool)
    ensures DecodeFlag(Some(BoolText(b))) == b
    ensures !DecodeFlag(None)
  {
  }

  /** The session the navigation bar reads right after a successful login is the
      one the server granted. */
  lemma ReadAfterLogin(items: map<string, string>, c: Credentials)
    ensures ReadSession(SaveLogin(items, c)) == Session(Some(c.token), c.isSuperuser, c.isStaff)
  {
  }

  /** After a logout whose request was rejected, the token is gone but the role
      flags read exactly as before. */
  lemma StaleFlagsAfterFailedLogout(items: map<string, string>)
    requires HasToken(items)
    ensures ReadSession(LogoutEffect(items, Thrown)).user == None
    ensures ReadSession(LogoutEffect(items, Thrown)).isSuperuser == ReadSession(items).isSuperuser
    ensures ReadSession(LogoutEffect(items, Thrown)).isStaff == ReadSession(items).isStaff
  {
  }

  /** What happens to storage over a browsing session: login attempts and logout runs. */
  datatype SessionEvent =
    | LoginSucceeded(creds: Credentials)
    | LoginFailed
    | LogoutRun(reply: Reply<(), ()>)

  function Apply(items: map<string, string>, e: SessionEvent): map<string, string> {
    match e
    case LoginSucceeded(c) => SaveLogin(items, c)
    case LoginFailed => items
    case LogoutRun(reply) => LogoutEffect(items, reply)
  }

  /** Storage after the events `evs`, in order, starting from `items`. */
  function Replay(items: map<string, string>, evs: seq<SessionEvent>): map<string, string>
    decreases |evs|
  {
    if evs == [] then items else Apply(Replay(items, evs[..|evs| - 1]), evs[|evs| - 1])
  }

  /** Starting logged out, whenever a token is present the whole session read from
      storage (token and both flags) is the one granted by the latest successful
      login, and nothing but failed login attempts happened since. */
  lemma {:induction false} LatestLoginDecides(start: map<string, string>, evs: seq<SessionEvent>)
    requires !HasToken(start)
    requires HasToken(Replay(start, evs))
    ensures exists i :: (0 <= i < |evs| && evs[i].LoginSucceeded? &&
                         ReadSession(Replay(start, evs)) == Session(Some(evs[i].creds.token), evs[i].creds.isSuperuser, evs[i].creds.isStaff) &&
                         (forall j :: i < j < |evs| ==> evs[j].LoginFailed?))
    decreases |evs|
  {
    var n := |evs|;
    var prefix := evs[..n - 1];
    var before := Replay(start, prefix);
    match evs[n - 1]
    case LoginSucceeded(c) =>
      ReadAfterLogin(before, c);
      assert evs[n - 1].LoginSucceeded?;
    case LoginFailed =>
      LatestLoginDecides(start, prefix);
      var i :| 0 <= i < |prefix| && prefix[i].LoginSucceeded? &&
        ReadSession(before) == Session(Some(prefix[i].creds.token), prefix[i].creds.isSuperuser, prefix[i].creds.isStaff) &&
        (forall j :: i < j < |prefix| ==> prefix[j].LoginFailed?);
      assert evs[i] == prefix[i];
      assert forall j :: i < j < n ==> evs[j].LoginFailed? by {
        forall j | i < j < n ensures evs[j].LoginFailed? {
          if j < n - 1 { assert evs[j] == prefix[j]; }
        }
      }
  }
}
