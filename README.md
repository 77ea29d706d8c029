# Smart University client: transport helper and session/view state machine

This project models the two pieces of logic in the Smart University web
client, a single-page React front end for a course and user management API.

- **The transport helper `api`** (module `Api`, with `Js` and `Prelude`). It
  shapes one request: the method defaults to GET, `Content-Type:
  application/json` is always sent, `Authorization: Bearer <token>` only for a
  truthy token, and a body only for a truthy `body`. It decodes the response as
  JSON exactly when the content type contains `application/json`, and as text
  otherwise. For a status outside 200..299 it throws an error. The message is
  picked, under JavaScript truthiness, from a `message` field, then an `error`
  field, then a non-empty string body, then `Request failed (<status>)`. The
  model writes out the JavaScript semantics this depends on: truthiness, `||`
  and `&&` returning an operand, and `String(x)` as `new Error(x)` applies it.
- **The `App` component** (module `AppComponent`, class `App`). Its fields are
  the session (`auth`), the login inputs, the view, the admin tab, the course
  and user create/edit forms, the password-reset form, and the three
  collections. Every handler is one method. It takes as parameters what each
  `api` call it makes settles to (`Outcome`: `Ok(data)` or `Err(message)`). It
  returns the calls it issues, in order, and the text it would `alert`. Its
  `ensures` give the whole new state as an update of the old one. Every
  handler keeps the invariant `Valid()`: the view is the one the session
  selects (`DerivedView`). In the handlers that have a catch block, two
  authentication-failure messages sign the session out through
  `handleAuthError`, and every other failure changes nothing and is shown as
  it is. The data-load effect swallows every failure, authentication failures
  included; the loaders pass failures on to their caller.

The two pieces meet in `InvalidTokenResponseSignsOut` and
`InvalidTokenScenario`. An error body whose `message` is "Invalid token"
settles to exactly that message, and `handleAuthError` turns it into a sign-out.

Form state is grouped into small records (`CourseForm`, `CourseEdit`,
`UserForm`, `UserEdit`, `PasswordReset`), one field per group of React state
variables. Numbers in decoded JSON are carried as their `String()` rendering.

## Model

| member | source | states |
|---|---|---|
| `Prelude.NatToString` | src/api.js:20 | the status rendering is a non-empty string of digits with no leading zero |
| `Prelude.NatToStringRoundTrip` | src/api.js:20 | reading the digits back gives the status: the rendering is faithful |
| `Prelude.IntToString` | src/App.jsx:153 | an id in a path renders as an optional '-' and digits whose value is the id, with no leading zero except for 0 itself |
| `Prelude.IncludesIffOccurs` | src/api.js:14 | `includes` is true exactly when the substring occurs at some position |
| `Api.BuildRequest` | src/api.js:3-11 | method defaults to GET; Content-Type is always application/json and comes first; an Authorization header is present iff the token is truthy and is then "Bearer " + token; no other header is sent (one header, or two with a token); a body is sent iff `body` is truthy, and it is `body` |
| `Api.Decoded` | src/api.js:13-14 | the data is the JSON reading iff "application/json" occurs in the content type, otherwise the text; a missing header means text |
| `Api.ErrorMessage` | src/api.js:17-20 | the message is a truthy `message`, else a truthy `error`, else a non-empty string body, else `Request failed (<status>)`; non-empty when both fields are strings, null or absent |
| `Api.Settle` | src/api.js:16-24 | an error exactly for a status outside 200..299, with ErrorMessage of the decoded data; otherwise the decoded data unchanged |
| `Api.EmptyBodyFallsThrough` | src/api.js:17-20 | a null or empty-string body on a failing status yields the fallback message |
| `Api.EmptyArrayMessagePrintsEmpty` | src/api.js:17-21 | a `message` field that is an empty array is picked and prints as "", so the non-empty guarantee needs string fields |
| `AppComponent.DerivedView` | src/App.jsx:62-68 | login iff no truthy token; admin iff a token and role "admin"; student iff a token and any other role |
| `AppComponent.AuthErrorSignsOut` | src/App.jsx:51-58 | an authentication failure leaves auth null, view login, tab courses and shows nothing; nothing else changes; any other error changes nothing and is shown; the view stays consistent |
| `AppComponent.NullIfBlank` | src/App.jsx:202-204 | a blank input is sent as null; any other input is kept (for the grade it stands for `Number(input)`) |
| `AppComponent.NewUserPayload` | src/App.jsx:196-205 | the create payload carries the password; birth date and average grade are null exactly when blank; the other fields are sent verbatim |
| `AppComponent.EditedUserPayload` | src/App.jsx:252-260 | the edit payload has no password field and the same null coercions |
| `AppComponent.OrDefault` | src/App.jsx:227-232 | `x \|\| fallback`: the field when it is a non-empty string, the fallback otherwise |
| `AppComponent.FirstTen` | src/App.jsx:231 | `slice(0, 10)`: exactly the first ten characters of a longer string, the whole string when it has at most ten |
| `AppComponent.CourseEditFor` | src/App.jsx:139-143 | editing a course takes its id and its name and type, blank when missing |
| `AppComponent.UserEditFor` | src/App.jsx:225-234 | editing a user takes its id; email, names and previous education are the record's or blank when missing; role is the record's or "user" when missing or blank; the birth date is exactly its first ten characters (all of it when shorter) and blank iff missing; the grade is its rendering, blank iff null |
| `AppComponent.UnchangedEditRoundTrip` | src/App.jsx:225-260 | opening a well-formed user for editing and saving it untouched sends the record's own values back, without a password |
| `AppComponent.SessionCallsCarryBearer` | src/api.js:6-9 | every call a handler makes passes the session's token, so while a panel is shown the request carries exactly Content-Type and `Authorization: Bearer <token>`; on the login view, and for the login call, only Content-Type |
| `AppComponent.InvalidTokenResponseSignsOut` | src/api.js:16-21 | a failing response whose body has `message: "Invalid token"` (other fields allowed) settles to exactly that message, which signs the session out silently |
| `AppComponent.App.constructor` | src/App.jsx:6-48 | the component starts signed out, on the login view, with empty forms (role "user") and empty collections |
| `AppComponent.App.HandleAuthError` | src/App.jsx:51-59 | returns true exactly for "Invalid token" and "No token provided"; then auth is null, view login, tab courses; otherwise no state changes |
| `AppComponent.App.Catch` | src/App.jsx:133-136 | the shared catch block: an authentication failure signs out and shows nothing; any other message is shown and nothing changes |
| `AppComponent.App.SyncView` | src/App.jsx:62-68 | the view effect sets the view to DerivedView of the session and nothing else |
| `AppComponent.App.Login` | src/App.jsx:71-88 | posts the typed credentials without a token; on success stores the session, clears email and password, resets the tab and derives the view; on failure keeps the typed credentials |
| `AppComponent.App.Logout` | src/App.jsx:90-96 | from any state: auth null, view login, tab courses, email and password empty, nothing else changed |
| `AppComponent.App.LoadCourses` | src/App.jsx:99-102 | GETs the courses with the token; success replaces the collection wholesale; a failure changes nothing and is passed on |
| `AppComponent.App.LoadUsers` | src/App.jsx:104-107 | the same for the user collection |
| `AppComponent.App.LoadMyCourses` | src/App.jsx:109-113 | the same for the student's own courses |
| `AppComponent.App.LoadSessionData` | src/App.jsx:116-123 | without a truthy token nothing happens; with one it loads courses and my-courses, and users only for an admin; failures are swallowed without signing out |
| `AppComponent.App.CreateCourse` | src/App.jsx:126-137 | posts the form; the form is cleared only after the POST succeeds, then courses are reloaded; a failed POST leaves the form and issues no reload |
| `AppComponent.App.StartEditCourse` | src/App.jsx:139-143 | fills the course edit fields from the course, nothing else |
| `AppComponent.App.CancelEditCourse` | src/App.jsx:145-149 | resets the course edit fields to id null and blank strings |
| `AppComponent.App.SaveEditCourse` | src/App.jsx:151-165 | PUTs the edit fields to the course's path; edit mode ends and courses reload only after success |
| `AppComponent.App.DeleteCourse` | src/App.jsx:167-176 | DELETEs the course; courses reload only after success |
| `AppComponent.App.Enroll` | src/App.jsx:179-188 | POSTs to the course's enroll path; the student's courses reload only after success |
| `AppComponent.App.CreateUser` | src/App.jsx:191-223 | posts NewUserPayload of the form; the form is reset (role "user") only after success, then users reload |
| `AppComponent.App.StartEditUser` | src/App.jsx:225-234 | fills the user edit fields with UserEditFor, nothing else |
| `AppComponent.App.CancelEditUser` | src/App.jsx:236-245 | resets every user edit field: id null, role "user", others blank |
| `AppComponent.App.SaveEditUser` | src/App.jsx:247-269 | PUTs EditedUserPayload (no password); edit mode ends and users reload only after success |
| `AppComponent.App.DeleteUser` | src/App.jsx:271-280 | DELETEs the user; users reload only after success |
| `AppComponent.App.ResetUserPassword` | src/App.jsx:282-296 | PUTs the new password; on success clears the reset form and does not reload users |
| `AppComponent.AdminLoginScenario` | src/App.jsx:71-88 | signing in as an admin opens the admin view on the courses tab after one login POST |
| `AppComponent.InvalidTokenScenario` | src/App.jsx:126-137 | a 401 `{"message":"Invalid token"}` answer to a course POST signs the admin out with no alert |

## Left out

- The `fetch` call, the base URL from the build environment, and the network: the response is a parameter (`Response`), and every outcome a handler sees is a parameter (`Outcome`).
- `JSON.stringify` and `JSON.parse`: a sent body is the value itself. A response whose JSON does not parse (where `res.json()` rejects) is not modelled. `Response.json` is always a well-formed value.
- Floating-point numbers: a JSON number is carried by its `String()` rendering. `Number(uAvg)` is not evaluated: the payload keeps the typed text, and `Some(t)` stands for `Number(t)`. An input such as "abc" becomes NaN and would serialise as null. The model does not capture this.
- Getters and methods that JavaScript would find on an object's prototype are not modelled. A property read sees only the object's own decoded fields.
- Header-name case-insensitivity and the `Headers` object: headers are a list of name/value pairs.
- A login response without a `user` object: there `data.user.role` throws after auth is set. The model takes `Session` as always carrying a profile.
- `alert` is modelled only as the returned `shown` text. The JSX rendering and styling are left out.
- Event wiring written inline in the JSX is left out: input `onChange` setters, the Courses/Users tab buttons, the Refresh buttons, and opening or cancelling the password-reset form.
- React effect scheduling and overlapping requests: each handler is one atomic transition. The view effect is folded into `Login` (through `SyncView`). The data-load effect is the separate method `LoadSessionData`, which a caller runs after the token or role changes.
- `AppComponent.App.HandleAuthError`: its argument is the error's message string. The model does not cover a thrown value without a `message` (`err?.message`).
