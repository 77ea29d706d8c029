/** The `App` component: the session, the view derived from it, the admin
    tab, the course and user forms, and the three collections it shows.
    Every handler is one atomic transition: whatever `api` settles to is
    passed in as an `Outcome`, and the handler returns the calls it issues
    (in order) and the text it would `alert`, if any. */
module AppComponent {
  import opened Prelude
  import opened Js
  import opened Api

  datatype View = LoginView | AdminView | StudentView
  datatype Tab = CoursesTab | UsersTab

  /** The signed-in user as the login response describes them. */
  datatype Profile = Profile(id: int, email: string, role: Option<string>)

  /** The login response stored as `auth`: `{ token, user }`. */
  datatype Session = Session(token: Option<string>, user: Profile)

  /** A course as the server lists it; a field the server leaves null is `None`. */
  datatype Course = Course(id: int, name: Option<string>, courseType: Option<string>)

  /** A user as the server lists it. `averageGrade` is the number's rendering
      `String(average_grade)`, `None` when the server sends null. */
  datatype UserRecord = UserRecord(
    id: int,
    email: Option<string>,
    role: Option<string>,
    firstName: Option<string>,
    lastName: Option<string>,
    birthDate: Option<string>,
    previousEducation: Option<string>,
    averageGrade: Option<string>)

  /** The create-course inputs `name` and `type`. */
  datatype CourseForm = CourseForm(name: string, courseType: string)

  /** `editingCourseId`, `editCourseName`, `editCourseType`. */
  datatype CourseEdit = CourseEdit(id: Option<int>, name: string, courseType: string)

  /** The create-user inputs `uEmail` … `uAvg`. */
  datatype UserForm = UserForm(
    email: string,
    password: string,
    role: string,
    firstName: string,
    lastName: string,
    birthDate: string,
    previousEducation: string,
    averageGrade: string)

  /** `editingUserId` and the edit-user inputs `editUEmail` … `editUAvg`. */
  datatype UserEdit = UserEdit(
    id: Option<int>,
    email: string,
    role: string,
    firstName: string,
    lastName: string,
    birthDate: string,
    previousEducation: string,
    averageGrade: string)

  /** `resetPwUserId` and `resetPw`. */
  datatype PasswordReset = PasswordReset(userId: Option<int>, password: string)

  const EmptyCourseForm := CourseForm("", "")
  const NoCourseEdit := CourseEdit(None, "", "")
  const EmptyUserForm := UserForm("", "", "user", "", "", "", "", "")
  const NoUserEdit := UserEdit(None, "", "user", "", "", "", "", "")
  const NoPasswordReset := PasswordReset(None, "")

  /** The body of a user POST or PUT. `birthDate == None` and
      `averageGrade == None` are JSON nulls; `averageGrade == Some(t)` is the
      number `Number(t)`; `password == None` means the field is absent. */
  datatype UserPayload = UserPayload(
    email: string,
    password: Option<string>,
    role: string,
    firstName: string,
    lastName: string,
    birthDate: Option<string>,
    previousEducation: string,
    averageGrade: Option<string>)

  datatype Payload =
    | NoBody
    | Credentials(email: string, password: string)
    | CourseBody(name: string, courseType: string)
    | UserBody(user: UserPayload)
    | PasswordBody(password: string)

  /** One call of `api(path, { method: verb, token, body })`. */
  datatype Call = Call(verb: string, path: string, token: Option<string>, body: Payload)

  /** Every piece of component state, for stating what a handler leaves alone. */
  datatype AppState = AppState(
    auth: Option<Session>,
    email: string,
    password: string,
    view: View,
    adminTab: Tab,
    courses: seq<Course>,
    courseForm: CourseForm,
    courseEdit: CourseEdit,
    myCourses: seq<Course>,
    users: seq<UserRecord>,
    userForm: UserForm,
    userEdit: UserEdit,
    passwordReset: PasswordReset)

  const InitialState := AppState(None, "", "", LoginView, CoursesTab, [], EmptyCourseForm, NoCourseEdit,
                                 [], [], EmptyUserForm, NoUserEdit, NoPasswordReset)

  const LoginPath := "/api/auth/login"
  const CoursesPath := "/api/courses"
  const MyCoursesPath := "/api/my-courses"
  const UsersPath := "/api/users"

  function CoursePath(id: int): string { CoursesPath + "/" + IntToString(id) }
  function EnrollPath(id: int): string { CoursePath(id) + "/enroll" }
  function UserPath(id: int): string { UsersPath + "/" + IntToString(id) }
  function PasswordPath(id: int): string { UserPath(id) + "/password" }

  function GetCall(path: string, token: Option<string>): Call { Call("GET", path, token, NoBody) }

  /** `auth?.token` */
  function TokenOf(auth: Option<Session>): Option<string>
  {
    if auth.Some? then auth.value.token else None
  }

  /** `auth?.user?.role` */
  function RoleOf(auth: Option<Session>): Option<string>
  {
    if auth.Some? then auth.value.user.role else None
  }

  predicate IsAdmin(auth: Option<Session>)
  {
    RoleOf(auth) == Some("admin")
  }

  /** The view the view effect selects: login without a token, the admin
      panel for the role "admin", the student panel for any other role. */
  function DerivedView(auth: Option<Session>): (v: View)
    ensures v == LoginView <==> !TokenTruthy(TokenOf(auth))
    ensures v == AdminView <==> TokenTruthy(TokenOf(auth)) && IsAdmin(auth)
    ensures v == StudentView <==> TokenTruthy(TokenOf(auth)) && !IsAdmin(auth)
  {
    if !TokenTruthy(TokenOf(auth)) then LoginView
    else if IsAdmin(auth) then AdminView
    else StudentView
  }

  /** The invariant every handler keeps: the view is the one the session selects. */
  predicate Consistent(s: AppState)
  {
    s.view == DerivedView(s.auth)
  }

  /** The two messages `handleAuthError` treats as a lost session. */
  predicate IsAuthFailure(message: string)
  {
    message == "Invalid token" || message == "No token provided"
  }

  /** The state after `handleAuthError(err)` for an error with `message`. */
  function AfterAuthError(s: AppState, message: string): AppState
  {
    if IsAuthFailure(message) then s.(auth := None, view := LoginView, adminTab := CoursesTab) else s
  }

  /** What a handler's catch block shows: nothing for an authentication
      failure, the message itself for every other error. */
  function Alert(message: string): Option<string>
  {
    if IsAuthFailure(message) then None else Some(message)
  }

  /** An authentication failure always ends in the signed-out state with the
      default tab and a consistent view, shows nothing and keeps the forms and
      collections; any other error changes nothing and is shown as it is. */
  lemma AuthErrorSignsOut(s: AppState, message: string)
    requires Consistent(s)
    ensures IsAuthFailure(message) ==> AfterAuthError(s, message).auth.None? && Alert(message).None?
    ensures IsAuthFailure(message) ==> AfterAuthError(s, message).view == LoginView && AfterAuthError(s, message).adminTab == CoursesTab
    ensures AfterAuthError(s, message).(auth := s.auth, view := s.view, adminTab := s.adminTab) == s
    ensures !IsAuthFailure(message) ==> AfterAuthError(s, message) == s && Alert(message) == Some(message)
    ensures Consistent(AfterAuthError(s, message))
  {
  }

  /** `uBirth || null` and `uAvg === "" ? null : Number(uAvg)`: on strings both
      send null exactly for the empty input. Otherwise `Some(input)` is the
      birth date as typed, or stands for `Number(input)` for the grade. */
  function NullIfBlank(input: string): (r: Option<string>)
    ensures r.None? <==> input == ""
    ensures r.Some? ==> r.value == input
  {
    if input == "" then None else Some(input)
  }

  /** The body `createUser` posts. */
  function NewUserPayload(f: UserForm): (p: UserPayload)
    ensures p.password == Some(f.password)
    ensures p.birthDate.None? <==> f.birthDate == ""
    ensures p.averageGrade.None? <==> f.averageGrade == ""
    ensures p.birthDate.Some? ==> p.birthDate.value == f.birthDate
    ensures p.averageGrade.Some? ==> p.averageGrade.value == f.averageGrade
    ensures p.email == f.email && p.role == f.role && p.firstName == f.firstName
    ensures p.lastName == f.lastName && p.previousEducation == f.previousEducation
  {
    UserPayload(f.email, Some(f.password), f.role, f.firstName, f.lastName,
                NullIfBlank(f.birthDate), f.previousEducation, NullIfBlank(f.averageGrade))
  }

  /** The body `saveEditUser` puts: the same coercions, and no password. */
  function EditedUserPayload(e: UserEdit): (p: UserPayload)
    ensures p.password.None?
    ensures p.birthDate.None? <==> e.birthDate == ""
    ensures p.averageGrade.None? <==> e.averageGrade == ""
    ensures p.birthDate.Some? ==> p.birthDate.value == e.birthDate
    ensures p.averageGrade.Some? ==> p.averageGrade.value == e.averageGrade
    ensures p.email == e.email && p.role == e.role && p.firstName == e.firstName
    ensures p.lastName == e.lastName && p.previousEducation == e.previousEducation
  {
    UserPayload(e.email, None, e.role, e.firstName, e.lastName,
                NullIfBlank(e.birthDate), e.previousEducation, NullIfBlank(e.averageGrade))
  }

  /** `x || fallback` for a string field the server may leave null. */
  function OrDefault(field: Option<string>, fallback: string): (r: string)
    ensures field.Some? && field.value != "" ==> r == field.value
    ensures field.None? || field.value == "" ==> r == fallback
  {
    if field.Some? && field.value != "" then field.value else fallback
  }

  /** `String(d).slice(0, 10)` */
  function FirstTen(d: string): (r: string)
    ensures |r| <= 10 && r <= d
    ensures |d| <= 10 ==> r == d
    ensures |d| > 10 ==> r == d[..10]
  {
    if |d| <= 10 then d else d[..10]
  }

  /** The edit fields `startEditCourse(c)` fills in. */
  function CourseEditFor(c: Course): (e: CourseEdit)
    ensures e.id == Some(c.id)
    ensures e.name == OrDefault(c.name, "") && e.courseType == OrDefault(c.courseType, "")
  {
    CourseEdit(Some(c.id), OrDefault(c.name, ""), OrDefault(c.courseType, ""))
  }

  /** The edit fields `startEditUser(u)` fills in: blank strings for missing
      fields, role "user" when none is given, the first ten characters of the
      birth date, and "" exactly when the average grade is null. */
  function UserEditFor(u: UserRecord): (e: UserEdit)
    ensures e.id == Some(u.id)
    ensures e.email == OrDefault(u.email, "")
    ensures e.role == OrDefault(u.role, "user") && e.role != ""
    ensures e.firstName == OrDefault(u.firstName, "") && e.lastName == OrDefault(u.lastName, "")
    ensures e.previousEducation == OrDefault(u.previousEducation, "")
    ensures |e.birthDate| <= 10
    ensures u.birthDate.Some? && |u.birthDate.value| >= 10 ==> e.birthDate == u.birthDate.value[..10]
    ensures u.birthDate.Some? && |u.birthDate.value| <= 10 ==> e.birthDate == u.birthDate.value
    ensures e.birthDate == "" <==> u.birthDate.None? || u.birthDate.value == ""
    ensures u.birthDate.Some? ==> e.birthDate <= u.birthDate.value
    ensures u.averageGrade.None? ==> e.averageGrade == ""
    ensures u.averageGrade.Some? ==> e.averageGrade == u.averageGrade.value
  {
    UserEdit(
      Some(u.id),
      OrDefault(u.email, ""),
      OrDefault(u.role, "user"),
      OrDefault(u.firstName, ""),
      OrDefault(u.lastName, ""),
      if u.birthDate.Some? && u.birthDate.value != "" then FirstTen(u.birthDate.value) else "",
      OrDefault(u.previousEducation, ""),
      if u.averageGrade.None? then "" else u.averageGrade.value)
  }

  /** A user record whose fields the edit form can carry without change:
      text fields present, a role, a birth date of at most ten characters
      (a plain date), and a grade rendering that is not blank. */
  predicate EditableAsIs(u: UserRecord)
  {
    u.email.Some? && u.role.Some? && u.role.value != "" && u.firstName.Some? && u.lastName.Some?
    && u.previousEducation.Some?
    && (u.birthDate.Some? ==> 0 < |u.birthDate.value| <= 10)
    && (u.averageGrade.Some? ==> u.averageGrade.value != "")
  }

  /** Opening a user for editing and saving it untouched sends the record's
      own values back (without a password); a null birth date or grade stays null. */
  lemma UnchangedEditRoundTrip(u: UserRecord)
    requires EditableAsIs(u)
    ensures EditedUserPayload(UserEditFor(u))
            == UserPayload(u.email.value, None, u.role.value, u.firstName.value, u.lastName.value,
                           u.birthDate, u.previousEducation.value, u.averageGrade)
  {
  }

  /** An error body whose `message` field is "Invalid token" (whatever else
      it carries) on a failing status settles to exactly that message, which
      signs the session out. */
  lemma InvalidTokenResponseSignsOut(res: Response, s: AppState)
    requires !IsOk(res.status)
    requires Get(Decoded(res), "message") == Str("Invalid token")
    ensures Settle(res) == Err("Invalid token")
    ensures AfterAuthError(s, Settle(res).message) == s.(auth := None, view := LoginView, adminTab := CoursesTab)
    ensures Alert(Settle(res).message) == None
  {
  }

  /** The options `api` receives for a call, with `body` the value the
      payload serialises from. */
  function CallOptions(c: Call, body: Value): Options
  {
    Options(Some(c.verb), c.token, body)
  }

  /** Every handler passes the session's token. While a panel is shown the
      request therefore carries `Authorization: Bearer <token>`. On the login
      view it carries no Authorization header, and neither does the login call. */
  lemma SessionCallsCarryBearer(s: AppState, c: Call, body: Value)
    requires Consistent(s) && c.token == TokenOf(s.auth)
    ensures s.view != LoginView ==>
              Header("Authorization", "Bearer " + TokenOf(s.auth).value) in BuildRequest(c.path, CallOptions(c, body)).headers
    ensures s.view == LoginView ==>
              forall h :: h in BuildRequest(c.path, CallOptions(c, body)).headers ==> h.name != "Authorization"
    ensures |BuildRequest(c.path, CallOptions(c, body)).headers| == if s.view == LoginView then 1 else 2
    ensures BuildRequest(LoginPath, Options(Some("POST"), None, body)).headers == [JsonContentType]
  {
  }

  const CourseCreated := "Course created \U{2705}"
  const CourseUpdated := "Course updated \U{2705}"
  const CourseDeleted := "Course deleted \U{2705}"
  const Enrolled := "Enrolled \U{2705}"
  const UserCreated := "User created \U{2705}"
  const UserUpdated := "User updated \U{2705}"
  const UserDeleted := "User deleted \U{2705}"
  const PasswordWasReset := "Password reset \U{2705}"

  class App {
    var auth: Option<Session>
    var email: string
    var password: string
    var view: View
    var adminTab: Tab
    var courses: seq<Course>
    var courseForm: CourseForm
    var courseEdit: CourseEdit
    var myCourses: seq<Course>
    var users: seq<UserRecord>
    var userForm: UserForm
    var userEdit: UserEdit
    var passwordReset: PasswordReset

    function State(): AppState
      reads this
    {
      AppState(auth, email, password, view, adminTab, courses, courseForm, courseEdit,
               myCourses, users, userForm, userEdit, passwordReset)
    }

    predicate Valid()
      reads this
    {
      Consistent(State())
    }

    /** `token`, read by every authenticated call. */
    function Token(): Option<string>
      reads this
    {
      TokenOf(auth)
    }

    /** The component mounts signed out, on the login view. */
    constructor ()
      ensures State() == InitialState && Valid()
    {
      auth := None;
      email, password := "", "";
      view := LoginView;
      adminTab := CoursesTab;
      courses, myCourses, users := [], [], [];
      courseForm, courseEdit := EmptyCourseForm, NoCourseEdit;
      userForm, userEdit := EmptyUserForm, NoUserEdit;
      passwordReset := NoPasswordReset;
    }

    method HandleAuthError(message: string) returns (handled: bool)
      requires Valid()
      modifies this
      ensures Valid()
      ensures handled == IsAuthFailure(message)
      ensures State() == AfterAuthError(old(State()), message)
    {
      if message == "Invalid token" || message == "No token provided" {
        auth := None;
        view := LoginView;
        adminTab := CoursesTab;
        return true;
      }
      return false;
    }

    /** The catch block every handler shares. */
    method Catch(message: string) returns (shown: Option<string>)
      requires Valid()
      modifies this
      ensures Valid()
      ensures shown == Alert(message)
      ensures State() == AfterAuthError(old(State()), message)
    {
      var handled := HandleAuthError(message);
      if handled {
        shown := None;
      } else {
        shown := Some(message);
      }
    }

    /** The view effect, run after `auth` changes. */
    method SyncView()
      modifies this
      ensures State() == old(State()).(view := DerivedView(auth))
      ensures Valid()
    {
      if !TokenTruthy(Token()) {
        view := LoginView;
        return;
      }
      view := if RoleOf(auth) == Some("admin") then AdminView else StudentView;
    }

    method Login(outcome: Outcome<Session>) returns (sent: seq<Call>, shown: Option<string>)
      requires Valid()
      modifies this
      ensures Valid()
      ensures sent == [Call("POST", LoginPath, None, Credentials(old(email), old(password)))]
      ensures outcome.Ok? ==> shown == None
      ensures outcome.Ok? ==> State() == old(State()).(auth := Some(outcome.data), email := "", password := "",
                                                      view := DerivedView(Some(outcome.data)), adminTab := CoursesTab)
      ensures outcome.Err? ==> shown == Alert(outcome.message)
      ensures outcome.Err? ==> State() == AfterAuthError(old(State()), outcome.message)
    {
      sent := [Call("POST", LoginPath, None, Credentials(email, password))];
      match outcome
      case Ok(data) =>
        auth := Some(data);
        email := "";
        password := "";
        view := if data.user.role == Some("admin") then AdminView else StudentView;
        adminTab := CoursesTab;
        SyncView();
        shown := None;
      case Err(message) =>
        shown := Catch(message);
    }

    method Logout()
      modifies this
      ensures State() == old(State()).(auth := None, view := LoginView, adminTab := CoursesTab, email := "", password := "")
      ensures Valid()
    {
      auth := None;
      view := LoginView;
      adminTab := CoursesTab;
      email := "";
      password := "";
    }

    /** `loadCourses`: a failure is passed on to the caller, not caught. */
    method LoadCourses(outcome: Outcome<seq<Course>>) returns (sent: Call, failure: Option<string>)
      requires Valid()
      modifies this
      ensures Valid()
      ensures sent == GetCall(CoursesPath, old(Token()))
      ensures outcome.Ok? ==> failure.None? && State() == old(State()).(courses := outcome.data)
      ensures outcome.Err? ==> failure == Some(outcome.message) && State() == old(State())
    {
      sent := GetCall(CoursesPath, Token());
      match outcome
      case Ok(data) =>
        courses := data;
        failure := None;
      case Err(message) =>
        failure := Some(message);
    }

    method LoadUsers(outcome: Outcome<seq<UserRecord>>) returns (sent: Call, failure: Option<string>)
      requires Valid()
      modifies this
      ensures Valid()
      ensures sent == GetCall(UsersPath, old(Token()))
      ensures outcome.Ok? ==> failure.None? && State() == old(State()).(users := outcome.data)
      ensures outcome.Err? ==> failure == Some(outcome.message) && State() == old(State())
    {
      sent := GetCall(UsersPath, Token());
      match outcome
      case Ok(data) =>
        users := data;
        failure := None;
      case Err(message) =>
        failure := Some(message);
    }

    method LoadMyCourses(outcome: Outcome<seq<Course>>) returns (sent: Call, failure: Option<string>)
      requires Valid()
      modifies this
      ensures Valid()
      ensures sent == GetCall(MyCoursesPath, old(Token()))
      ensures outcome.Ok? ==> failure.None? && State() == old(State()).(myCourses := outcome.data)
      ensures outcome.Err? ==> failure == Some(outcome.message) && State() == old(State())
    {
      sent := GetCall(MyCoursesPath, Token());
      match outcome
      case Ok(data) =>
        myCourses := data;
        failure := None;
      case Err(message) =>
        failure := Some(message);
    }

    /** The data-load effect, run when the token or the role changes: with a
        token it loads courses and "my courses", and users for an admin; every
        failure is swallowed, authentication failures included. */
    method LoadSessionData(coursesOutcome: Outcome<seq<Course>>, myCoursesOutcome: Outcome<seq<Course>>,
                           usersOutcome: Outcome<seq<UserRecord>>) returns (sent: seq<Call>)
      requires Valid()
      modifies this
      ensures Valid()
      ensures !TokenTruthy(old(Token())) ==> sent == [] && State() == old(State())
      ensures TokenTruthy(old(Token())) ==>
                sent == [GetCall(CoursesPath, old(Token())), GetCall(MyCoursesPath, old(Token()))]
                        + (if IsAdmin(old(auth)) then [GetCall(UsersPath, old(Token()))] else [])
      ensures TokenTruthy(old(Token())) ==>
                State() == old(State()).(
                  courses := if coursesOutcome.Ok? then coursesOutcome.data else old(courses),
                  myCourses := if myCoursesOutcome.Ok? then myCoursesOutcome.data else old(myCourses),
                  users := if IsAdmin(old(auth)) && usersOutcome.Ok? then usersOutcome.data else old(users))
    {
      if !TokenTruthy(Token()) {
        return [];
      }
      var c, _ := LoadCourses(coursesOutcome);
      var m, _ := LoadMyCourses(myCoursesOutcome);
      sent := [c, m];
      if RoleOf(auth) == Some("admin") {
        var u, _ := LoadUsers(usersOutcome);
        sent := sent + [u];
      }
    }

    method CreateCourse(post: Outcome<Value>, reload: Outcome<seq<Course>>) returns (sent: seq<Call>, shown: Option<string>)
      requires Valid()
      modifies this
      ensures Valid()
      ensures sent == [Call("POST", CoursesPath, old(Token()), CourseBody(old(courseForm).name, old(courseForm).courseType))]
                      + (if post.Ok? then [GetCall(CoursesPath, old(Token()))] else [])
      ensures post.Err? ==> shown == Alert(post.message) && State() == AfterAuthError(old(State()), post.message)
      ensures post.Ok? && reload.Ok? ==> (shown == Some(CourseCreated)
                && State() == old(State()).(courseForm := EmptyCourseForm, courses := reload.data))
      ensures post.Ok? && reload.Err? ==> (shown == Alert(reload.message)
                && State() == AfterAuthError(old(State()).(courseForm := EmptyCourseForm), reload.message))
    {
      sent := [Call("POST", CoursesPath, Token(), CourseBody(courseForm.name, courseForm.courseType))];
      if post.Err? {
        shown := Catch(post.message);
        return;
      }
      courseForm := EmptyCourseForm;
      var get, failure := LoadCourses(reload);
      sent := sent + [get];
      if failure.Some? {
        shown := Catch(failure.value);
      } else {
        shown := Some(CourseCreated);
      }
    }

    method StartEditCourse(c: Course)
      requires Valid()
      modifies this
      ensures Valid()
      ensures State() == old(State()).(courseEdit := CourseEditFor(c))
    {
      courseEdit := CourseEdit(Some(c.id), OrDefault(c.name, ""), OrDefault(c.courseType, ""));
    }

    method CancelEditCourse()
      requires Valid()
      modifies this
      ensures Valid()
      ensures State() == old(State()).(courseEdit := NoCourseEdit)
    {
      courseEdit := CourseEdit(None, "", "");
    }

    method SaveEditCourse(id: int, put: Outcome<Value>, reload: Outcome<seq<Course>>) returns (sent: seq<Call>, shown: Option<string>)
      requires Valid()
      modifies this
      ensures Valid()
      ensures sent == [Call("PUT", CoursePath(id), old(Token()), CourseBody(old(courseEdit).name, old(courseEdit).courseType))]
                      + (if put.Ok? then [GetCall(CoursesPath, old(Token()))] else [])
      ensures put.Err? ==> shown == Alert(put.message) && State() == AfterAuthError(old(State()), put.message)
      ensures put.Ok? && reload.Ok? ==> (shown == Some(CourseUpdated)
                && State() == old(State()).(courseEdit := NoCourseEdit, courses := reload.data))
      ensures put.Ok? && reload.Err? ==> (shown == Alert(reload.message)
                && State() == AfterAuthError(old(State()).(courseEdit := NoCourseEdit), reload.message))
    {
      sent := [Call("PUT", CoursePath(id), Token(), CourseBody(courseEdit.name, courseEdit.courseType))];
      if put.Err? {
        shown := Catch(put.message);
        return;
      }
      CancelEditCourse();
      var get, failure := LoadCourses(reload);
      sent := sent + [get];
      if failure.Some? {
        shown := Catch(failure.value);
      } else {
        shown := Some(CourseUpdated);
      }
    }

    method DeleteCourse(id: int, del: Outcome<Value>, reload: Outcome<seq<Course>>) returns (sent: seq<Call>, shown: Option<string>)
      requires Valid()
      modifies this
      ensures Valid()
      ensures sent == [Call("DELETE", CoursePath(id), old(Token()), NoBody)]
                      + (if del.Ok? then [GetCall(CoursesPath, old(Token()))] else [])
      ensures del.Err? ==> shown == Alert(del.message) && State() == AfterAuthError(old(State()), del.message)
      ensures del.Ok? && reload.Ok? ==> shown == Some(CourseDeleted) && State() == old(State()).(courses := reload.data)
      ensures del.Ok? && reload.Err? ==> (shown == Alert(reload.message)
                && State() == AfterAuthError(old(State()), reload.message))
    {
      sent := [Call("DELETE", CoursePath(id), Token(), NoBody)];
      if del.Err? {
        shown := Catch(del.message);
        return;
      }
      var get, failure := LoadCourses(reload);
      sent := sent + [get];
      if failure.Some? {
        shown := Catch(failure.value);
      } else {
        shown := Some(CourseDeleted);
      }
    }

    method Enroll(courseId: int, post: Outcome<Value>, reload: Outcome<seq<Course>>) returns (sent: seq<Call>, shown: Option<string>)
      requires Valid()
      modifies this
      ensures Valid()
      ensures sent == [Call("POST", EnrollPath(courseId), old(Token()), NoBody)]
                      + (if post.Ok? then [GetCall(MyCoursesPath, old(Token()))] else [])
      ensures post.Err? ==> shown == Alert(post.message) && State() == AfterAuthError(old(State()), post.message)
      ensures post.Ok? && reload.Ok? ==> shown == Some(Enrolled) && State() == old(State()).(myCourses := reload.data)
      ensures post.Ok? && reload.Err? ==> (shown == Alert(reload.message)
                && State() == AfterAuthError(old(State()), reload.message))
    {
      sent := [Call("POST", EnrollPath(courseId), Token(), NoBody)];
      if post.Err? {
        shown := Catch(post.message);
        return;
      }
      var get, failure := LoadMyCourses(reload);
      sent := sent + [get];
      if failure.Some? {
        shown := Catch(failure.value);
      } else {
        shown := Some(Enrolled);
      }
    }

    method CreateUser(post: Outcome<Value>, reload: Outcome<seq<UserRecord>>) returns (sent: seq<Call>, shown: Option<string>)
      requires Valid()
      modifies this
      ensures Valid()
      ensures sent == [Call("POST", UsersPath, old(Token()), UserBody(NewUserPayload(old(userForm))))]
                      + (if post.Ok? then [GetCall(UsersPath, old(Token()))] else [])
      ensures post.Err? ==> shown == Alert(post.message) && State() == AfterAuthError(old(State()), post.message)
      ensures post.Ok? && reload.Ok? ==> (shown == Some(UserCreated)
                && State() == old(State()).(userForm := EmptyUserForm, users := reload.data))
      ensures post.Ok? && reload.Err? ==> (shown == Alert(reload.message)
                && State() == AfterAuthError(old(State()).(userForm := EmptyUserForm), reload.message))
    {
      sent := [Call("POST", UsersPath, Token(), UserBody(NewUserPayload(userForm)))];
      if post.Err? {
        shown := Catch(post.message);
        return;
      }
      userForm := UserForm("", "", "user", "", "", "", "", "");
      var get, failure := LoadUsers(reload);
      sent := sent + [get];
      if failure.Some? {
        shown := Catch(failure.value);
      } else {
        shown := Some(UserCreated);
      }
    }

    method StartEditUser(u: UserRecord)
      requires Valid()
      modifies this
      ensures Valid()
      ensures State() == old(State()).(userEdit := UserEditFor(u))
    {
      userEdit := UserEditFor(u);
    }

    method CancelEditUser()
      requires Valid()
      modifies this
      ensures Valid()
      ensures State() == old(State()).(userEdit := NoUserEdit)
    {
      userEdit := UserEdit(None, "", "user", "", "", "", "", "");
    }

    method SaveEditUser(id: int, put: Outcome<Value>, reload: Outcome<seq<UserRecord>>) returns (sent: seq<Call>, shown: Option<string>)
      requires Valid()
      modifies this
      ensures Valid()
      ensures sent == [Call("PUT", UserPath(id), old(Token()), UserBody(EditedUserPayload(old(userEdit))))]
                      + (if put.Ok? then [GetCall(UsersPath, old(Token()))] else [])
      ensures put.Err? ==> shown == Alert(put.message) && State() == AfterAuthError(old(State()), put.message)
      ensures put.Ok? && reload.Ok? ==> (shown == Some(UserUpdated)
                && State() == old(State()).(userEdit := NoUserEdit, users := reload.data))
      ensures put.Ok? && reload.Err? ==> (shown == Alert(reload.message)
                && State() == AfterAuthError(old(State()).(userEdit := NoUserEdit), reload.message))
    {
      sent := [Call("PUT", UserPath(id), Token(), UserBody(EditedUserPayload(userEdit)))];
      if put.Err? {
        shown := Catch(put.message);
        return;
      }
      CancelEditUser();
      var get, failure := LoadUsers(reload);
      sent := sent + [get];
      if failure.Some? {
        shown := Catch(failure.value);
      } else {
        shown := Some(UserUpdated);
      }
    }

    method DeleteUser(id: int, del: Outcome<Value>, reload: Outcome<seq<UserRecord>>) returns (sent: seq<Call>, shown: Option<string>)
      requires Valid()
      modifies this
      ensures Valid()
      ensures sent == [Call("DELETE", UserPath(id), old(Token()), NoBody)]
                      + (if del.Ok? then [GetCall(UsersPath, old(Token()))] else [])
      ensures del.Err? ==> shown == Alert(del.message) && State() == AfterAuthError(old(State()), del.message)
      ensures del.Ok? && reload.Ok? ==> shown == Some(UserDeleted) && State() == old(State()).(users := reload.data)
      ensures del.Ok? && reload.Err? ==> (shown == Alert(reload.message)
                && State() == AfterAuthError(old(State()), reload.message))
    {
      sent := [Call("DELETE", UserPath(id), Token(), NoBody)];
      if del.Err? {
        shown := Catch(del.message);
        return;
      }
      var get, failure := LoadUsers(reload);
      sent := sent + [get];
      if failure.Some? {
        shown := Catch(failure.value);
      } else {
        shown := Some(UserDeleted);
      }
    }

    /** Resets a user's password; on success the reset form closes and the
        user list is not reloaded. */
    method ResetUserPassword(id: int, put: Outcome<Value>) returns (sent: seq<Call>, shown: Option<string>)
      requires Valid()
      modifies this
      ensures Valid()
      ensures sent == [Call("PUT", PasswordPath(id), old(Token()), PasswordBody(old(passwordReset).password))]
      ensures put.Err? ==> shown == Alert(put.message) && State() == AfterAuthError(old(State()), put.message)
      ensures put.Ok? ==> shown == Some(PasswordWasReset) && State() == old(State()).(passwordReset := NoPasswordReset)
    {
      sent := [Call("PUT", PasswordPath(id), Token(), PasswordBody(passwordReset.password))];
      if put.Err? {
        shown := Catch(put.message);
        return;
      }
      passwordReset := PasswordReset(None, "");
      shown := Some(PasswordWasReset);
    }
  }

  /** Signing in as an admin opens the admin panel on the courses tab. */
  method AdminLoginScenario() returns (view: View, tab: Tab, sent: seq<Call>)
    ensures view == AdminView && tab == CoursesTab
    ensures sent == [Call("POST", LoginPath, None, Credentials("a@x.com", "p"))]
  {
    var app := new App();
    app.email, app.password := "a@x.com", "p";
    var shown;
    sent, shown := app.Login(Ok(Session(Some("t1"), Profile(1, "a@x.com", Some("admin")))));
    view, tab := app.view, app.adminTab;
  }

  /** A server that answers a signed-in admin's course POST with
      `401 {"message":"Invalid token"}` signs the session out silently. */
  method InvalidTokenScenario() returns (shown: Option<string>, view: View, auth: Option<Session>)
    ensures shown.None? && view == LoginView && auth.None?
  {
    var app := new App();
    var _, _ := app.Login(Ok(Session(Some("t1"), Profile(1, "a@x.com", Some("admin")))));
    var res := Response(401, Some("application/json"), "", Obj(map["message" := Str("Invalid token")]));
    assert ReadsAsJson(res);
    InvalidTokenResponseSignsOut(res, app.State());
    var _, s := app.CreateCourse(Settle(res), Ok([]));
    shown, view, auth := s, app.view, app.auth;
  }
}
