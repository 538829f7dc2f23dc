/** The logout view: on mount it tells the server, clears the stored session and
    goes to the login page, whatever the server says. */
module Logout {
  import opened Browser
  import opened SessionStore

  const LoginPath := "/login"

  /** `POST /account/logout/` with the header `Token <token>`. */
  datatype LogoutRequest = LogoutRequest(token: string)

  /** `handleLogout`. Without a token: no request, storage untouched. With one: any
      reply removes the three session keys; a rejected request removes only the
      token. Every path ends on the login page with no token stored. */
  method HandleLogout(store: Store, reply: Reply<(), ()>)
    returns (request: Option<LogoutRequest>, navigateTo: string)
    modifies store
    ensures request == if old(HasToken(store.items)) then Some(LogoutRequest(old(store.items)[TokenKey])) else None
    ensures store.items == LogoutEffect(old(store.items), reply)
    ensures !HasToken(store.items)
    ensures navigateTo == LoginPath
  {
    var token := Lookup(store.items, TokenKey);
    if !Truthy(token) {
      return None, LoginPath;
    }
    request := Some(LogoutRequest(token.value));
    if reply.Thrown? {
      store.RemoveItem(TokenKey);
      navigateTo := LoginPath;
    } else {
      store.RemoveItem(TokenKey);
      store.RemoveItem(SuperuserKey);
      store.RemoveItem(StaffKey);
      navigateTo := LoginPath;
    }
  }
}
