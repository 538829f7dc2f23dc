# User-management admin client — Dafny model

A model of the client-side state rules of a small single-page admin panel
(login, registration, logout, profile editor, and an admin dashboard that lists,
searches, paginates and deletes user accounts). The backend does all the real
work; what the client decides on its own is modelled here:

- **Browser** — JavaScript truthiness of strings, the `a || b || c` chain over
  strings (`FirstTruthy`), the `Reply` of a `fetch` (`Ok(body)`, `NotOk(status, err)`,
  `Thrown`), and `localStorage` as a `Store` object holding a `map<string, string>`.
- **SessionStore** — the three stored keys `token`, `is_superuser`, `is_staff`;
  what a successful login writes (`SaveLogin`), what each logout path removes
  (`LogoutEffect`), how the navigation bar decodes them (`ReadSession`, where a
  flag is true only for the exact string `"true"`), and a replay of any sequence
  of login and logout outcomes with the proof that, while a token is present,
  the session read from storage is exactly the one granted by the latest
  successful login.
- **Dashboard** — the dashboard's state (`users`, `totalUsers`, `search`, `page`,
  `totalPages`, `loading`, `error`, `selectedUser`) as a class; the fetch, delete,
  search and pagination handlers as methods; the pagination window, page count,
  status label and row actions as functions. The class keeps `page >= 1` and
  `totalPages == ceil(totalUsers / 10)` (except before the first successful fetch,
  where the initial `totalPages` is 1). It does not keep `page <= totalPages`,
  because the source does not: Next is disabled only when `page == totalPages`.
- **Login**, **Logout**, **Register**, **Profile** — each form's state as a class
  (Logout has none: one method) whose submit handler takes the server's reply as
  a parameter and returns the request it sends and where it navigates.
- **Navbar** — the links shown for a session, on desktop and in the mobile menu,
  the menu toggle, and the re-read of storage on every route change.

The network is a parameter: every handler receives the `Reply` the server would
give and returns the request it issues (`None` when it issues none). Navigation
is a returned path; the registration page's three-second timer is a returned
`Redirect("/login", 3000)`; `window.confirm` is a boolean parameter; an `alert`
is a returned message.

Points where the code's behaviour is easy to misread:

- a failed user-list fetch only sets the error message: the previous rows, user
  count and page count stay in place (src/components/Dashbord.jsx:42-43);
- a logout whose request is rejected removes only the token, so both role flags
  stay in storage (src/components/Logout.jsx:36-40);
- a 403 on the profile fetch sets the "forbidden" message and then throws, and
  the catch overwrites it with "Failed to fetch profile data!"
  (src/components/Profile.jsx:37-53);
- "no token" means JavaScript falsiness, so a stored empty token counts as
  missing: the logout view then sends nothing and removes nothing, and the
  property proved on every logout path is "no truthy token is stored".

## Model

| member | source | states |
|---|---|---|
| Browser.FirstTruthy | src/components/Register.jsx:73-79 | A `||` chain yields "" exactly when every operand is falsy, and otherwise the first truthy operand |
| Browser.Text | src/components/Login.jsx:35 | A missing value enters a `||` chain as "", a present one as its own string; the operand is truthy iff the value is present and non-empty |
| Browser.BoolText | src/components/Login.jsx:30-31 | `setItem` stores a boolean as "true" exactly when it is true and "false" exactly when it is false |
| Browser.Lookup | src/components/Navber.jsx:17-19 | `getItem` gives the stored value for a present key and null for a missing one |
| Browser.Store.SetItem | src/components/Login.jsx:29-31 | `setItem` maps the key to the value and changes no other key |
| Browser.Store.RemoveItem | src/components/Logout.jsx:30-32 | `removeItem` deletes the key and changes no other key |
| SessionStore.HasToken | src/components/Dashbord.jsx:19-20 | A token counts as present exactly when the token key is stored with a non-empty value |
| SessionStore.ReadSession | src/components/Navber.jsx:16-20 | The session read from storage is the stored token (or none) and each role flag is true exactly when its key holds the string "true" |
| SessionStore.DecodeFlag | src/components/Navber.jsx:8-13 | A role flag reads as true iff the stored string is exactly the one a login writes for true; a missing key reads as false |
| SessionStore.SaveLogin | src/components/Login.jsx:29-31 | A successful login adds exactly the keys token, is_superuser and is_staff, holding the token and `String` of each flag; every other key keeps its value |
| SessionStore.LogoutEffect | src/components/Logout.jsx:9-40 | After logout no truthy token is stored; without a token storage is unchanged; any reply removes all three keys; a rejected request removes only the token; no key gains a new value |
| SessionStore.FlagRoundTrip | src/components/Navber.jsx:9-12 | A boolean written as `String(b)` decodes back to `b`; a missing flag decodes to false |
| SessionStore.ReadAfterLogin | src/components/Login.jsx:29-31 | The session the navigation bar reads after a successful login is the token and the two flags the server granted |
| SessionStore.StaleFlagsAfterFailedLogout | src/components/Logout.jsx:36-40 | After a rejected logout the token is gone but both role flags decode as before |
| SessionStore.LatestLoginDecides | src/components/Logout.jsx:25-40 | From a logged-out store, whenever a token is present after any sequence of logins and logouts, token and flags equal those of the latest successful login and only failed logins happened since |
| Dashboard.TotalPagesFor | src/components/Dashbord.jsx:41 | The page count is the least number of 10-row pages holding `count` users; it is 0 exactly when the count is 0 |
| Dashboard.TotalPagesExample | src/components/Dashbord.jsx:13 | 23 users give 3 pages, 20 give 2, 0 give 0 |
| Dashboard.Interval | src/components/Dashbord.jsx:77 | `Array.from` yields the consecutive integers from `lo` to `hi`, and nothing when `hi < lo` |
| Dashboard.PaginationRange | src/components/Dashbord.jsx:70-78 | The window has min(5, totalPages) entries (none when there are no pages), all consecutive and within [1, totalPages]; it contains the current page when that is a real page; it is centred on the page away from the edges, starts at 1 near the start and ends at the last page near the end |
| Dashboard.StatusLabel | src/components/Dashbord.jsx:146-150 | The status is Superuser whenever the superuser flag is set, else Staff when the staff flag is set, else User |
| Dashboard.RowActions | src/components/Dashbord.jsx:153-166 | Every row has View; a row has Delete exactly when it is not a superuser |
| Dashboard.PanelFor | src/components/Dashbord.jsx:106-134 | Loading shows the loading text; otherwise an error shows the error; otherwise an empty list shows "No users found", and a non-empty one shows the table of exactly those rows |
| Dashboard.DashboardView.constructor | src/components/Dashbord.jsx:4-11 | The initial state: no rows, count 0, empty search, page 1 of 1, not loading, no error, no dialog |
| Dashboard.DashboardView.ShowPagination | src/components/Dashbord.jsx:177 | The pagination control is shown exactly when its window has at least two page numbers |
| Dashboard.DashboardView.FetchUsers | src/components/Dashbord.jsx:15-47 | Without a token: no request, the not-logged-in message, rows unchanged. A failed or rejected request: the load-failed message, rows and counts unchanged. Success: rows, count and page count replaced, error cleared. Page, search and dialog untouched, loading false on every path |
| Dashboard.DashboardView.HandleDelete | src/components/Dashbord.jsx:53-68 | Declining the confirm sends nothing; confirming sends the delete with the stored token; any reply starts a refetch; a rejected request raises the alert and starts none |
| Dashboard.DashboardView.OnSearchChange | src/components/Dashbord.jsx:98-101 | Editing the search sets the term to the new text and the page to 1, nothing else |
| Dashboard.DashboardView.ClickPrev | src/components/Dashbord.jsx:179-185 | Prev moves one page back unless the page is 1 (disabled) or the control is hidden |
| Dashboard.DashboardView.ClickNext | src/components/Dashbord.jsx:199-205 | Next moves one page on unless the page equals totalPages (disabled) or the control is hidden |
| Dashboard.DashboardView.ClickPageNumber | src/components/Dashbord.jsx:186-198 | A page-number button sets the page to the number it shows, which keeps the page at least 1 |
| Dashboard.DashboardView.ViewUser | src/components/Dashbord.jsx:155 | View opens the details dialog for that row and changes nothing else |
| Dashboard.DashboardView.CloseDetails | src/components/Dashbord.jsx:213-216 | Closing the dialog clears the selection and changes nothing else |
| Login.FailureMessage | src/components/Login.jsx:35 | A rejected login shows the server's non-empty `detail`, else "Invalid credentials" |
| Login.LoginForm.constructor | src/components/Login.jsx:5-8 | Empty fields, no error, not loading |
| Login.LoginForm.SetUsername | src/components/Login.jsx:68 | Typing a username changes only the username |
| Login.LoginForm.SetPassword | src/components/Login.jsx:82 | Typing a password changes only the password |
| Login.LoginForm.HandleSubmit | src/components/Login.jsx:11-42 | Sends the typed credentials; ok: storage gets exactly the session keys and navigation goes to "/", error cleared; non-ok: storage unchanged, server detail or fallback message; rejected: storage unchanged, "Something went wrong. Please try again."; loading false afterwards |
| Logout.HandleLogout | src/components/Logout.jsx:8-41 | A request only when a token is stored; storage becomes the logout effect (all three keys removed on any reply, only the token on a rejected request, nothing without a token); no token is left and navigation goes to /login on every path |
| Navbar.Links | src/components/Navber.jsx:36-101 | Home always; Profile and Logout iff a token is present; Login and Register iff not; Dashboard iff a token is present and the user is superuser or staff |
| Navbar.MobileLinks | src/components/Navber.jsx:143-196 | The mobile menu shows no links while closed and the desktop links while open |
| Navbar.NoDashboardWithoutToken | src/components/Navber.jsx:49-64 | Without a token the Dashboard link is hidden in both menus, whatever flags are stored |
| Navbar.DashboardLinkFromLatestLogin | src/components/Navber.jsx:64 | After any sequence of logins and logouts from a logged-out store, the Dashboard link shows only if the latest successful login granted superuser or staff and no logout ran since |
| Navbar.NavigationBar.constructor | src/components/Navber.jsx:6-13 | The bar starts with the menu closed and the session read from storage |
| Navbar.NavigationBar.OnLocationChange | src/components/Navber.jsx:16-20 | Every route change re-reads the session from storage and keeps the menu state |
| Navbar.NavigationBar.ToggleMenu | src/components/Navber.jsx:106 | The menu button negates `isMenuOpen` and changes nothing else |
| Register.FormData.With | src/components/Register.jsx:22-25 | Updating one field sets it and leaves the other five unchanged |
| Register.FirstOf | src/components/Register.jsx:74-76 | A field's message is the first entry of the server's list for that field when the list is present and non-empty, and "" otherwise |
| Register.FailureMessage | src/components/Register.jsx:73-79 | A rejected registration shows the first username error, else email, else password, else detail, else "Something went wrong!" |
| Register.RegisterForm.constructor | src/components/Register.jsx:7-18 | All six fields empty, no messages, not loading |
| Register.RegisterForm.HandleChange | src/components/Register.jsx:21-26 | Typing updates only the named field |
| Register.RegisterForm.HandleSubmit | src/components/Register.jsx:29-86 | Messages cleared first; mismatched passwords: "Passwords do not match!", no request, form kept; else the form is posted; ok: success message, all six fields emptied, move to /login scheduled after 3000 ms; non-ok: the precedence message; rejected: "Failed to connect to the server!"; loading false on every path |
| Profile.ProfileForm.With | src/components/Profile.jsx:61-64 | Updating one field sets it and leaves the other three unchanged |
| Profile.FormOf | src/components/Profile.jsx:45-50 | A fetched profile fills the form with exactly its username, first name, last name and email |
| Profile.RoleLabel | src/components/Profile.jsx:110-112 | Superuser outranks staff; plain user is the default |
| Profile.ProfilePage.constructor | src/components/Profile.jsx:7-17 | No profile, not editing, empty form, no messages, not loading |
| Profile.ProfilePage.LoadProfile | src/components/Profile.jsx:20-58 | Without a token: "Please login first!" and no request; any non-ok reply, 403 included, and a rejected request end with "Failed to fetch profile data!"; ok: profile and form filled |
| Profile.ProfilePage.HandleChange | src/components/Profile.jsx:61-64 | Typing, possible only in the first-name and last-name inputs and only in edit mode, updates only that form field; username and email never change |
| Profile.ProfilePage.SetEditMode | src/components/Profile.jsx:214-225 | Edit Profile and Cancel set edit mode and change nothing else |
| Profile.ProfilePage.HandleSave | src/components/Profile.jsx:67-100 | Without a token: only the error changes, no request, loading untouched; else the form is sent; ok: profile replaced, saved message, edit mode left; failure: "Failed to update profile!", edit mode kept; loading false afterwards |

## Left out

- Rendering, CSS classes, the home page, the router and layout wiring, the
  empty context provider and the axios client configuration: they hold no state
  rules.
- The `fetch`/`res.json()` mechanics: a reply whose body is not JSON is folded
  into `Thrown`, and reply bodies are typed records (a `count` that is not a
  number, or a flag that is not a boolean, is not modelled).
- Request URLs and headers are reduced to the request's parameters and token;
  the search text is not URL-encoded by the source and the model does not
  model encoding.
- React effect scheduling: the list fetch that runs when `page` or `search`
  changes, and the refetch that `handleDelete` starts without waiting, are
  separate `FetchUsers` calls made by the caller; overlapping in-flight fetches
  and which one resolves last (concurrency) are not modelled.
- The intermediate `loading == true` state while a request is in flight is not
  observable in a sequential model; only the state after each handler is stated.
- Register.RegisterForm.HandleChange and Profile.ProfilePage.HandleChange take
  one of the form's own field names: `{ ...formData, [name]: value }` with any
  other name would add a new key, which no input of either form can send. The
  profile's username and email inputs have no change handler and are disabled,
  and its name inputs are disabled outside edit mode, so Profile.ProfilePage.HandleChange
  requires edit mode and a name field.
- The `required` attribute on the login inputs (src/components/Login.jsx:71,
  src/components/Login.jsx:85) and the registration inputs
  (src/components/Register.jsx:116-191): the browser refuses to submit while one
  of them is empty. That check happens before the submit handler runs, so it is
  not modelled; Login.LoginForm.HandleSubmit and Register.RegisterForm.HandleSubmit
  accept empty fields as well, which only widens the inputs they cover.
- `console.error` logging in the logout and profile views.
- Client-side role filtering, first-name sorting, the edit dialog, the
  jump-to-last-page control and the staff/active counters described for the
  dashboard are not in the dashboard source modelled here, so they are not
  modelled.
