/** The "Register User" screen: only an admin may stay on it, the chosen username is
    checked for availability as it is typed, and registering runs an ordered chain of
    checks before the one request that creates the user account for an employee. */
module RegisterEmployeeUser {
  import opened Common
  import opened JsText

  /** An employee without an account, as `GET /api/employees/unregistered` lists it. */
  datatype Candidate = Candidate(employeeId: int, firstName: string, lastName: string, departmentName: Option<string>)

  /** The bodies this screen sends: the query of the availability check and the
      registration. The registration has no place for the confirmation password. */
  datatype Body = UsernameQuery(username: string) | Registration(employeeId: string, username: string, password: string)

  /** The effect of the stored role (`localStorage.getItem('role')`, `None` when absent):
      anyone but an admin is sent to "/". */
  function RoleGate(role: Option<string>): seq<Effect<Body>> {
    if role != Some("admin") then [Navigate("/")] else []
  }

  lemma RoleGateAdminOnly(role: Option<string>)
    ensures RoleGate(role) == [] <==> role == Some("admin")
    ensures Navigate("/") in RoleGate(role) <==> role != Some("admin")
    ensures Requests(RoleGate(role)) == []
  {
  }

  const EmployeesFailedText := "Failed to load employee data."

  /** The mount load of the unregistered employees. */
  function CandidatesLoaded(employees: seq<Candidate>, response: Response<seq<Candidate>>): Step<seq<Candidate>, Body> {
    var request := Send(Request(Get, "/api/employees/unregistered", None));
    match response
    case Ok(data) => Step(data, [request])
    case Failed(_) => Step(employees, [request, Alert(EmployeesFailedText)])
  }

  lemma CandidatesLoadedOutcome(employees: seq<Candidate>, response: Response<seq<Candidate>>)
    ensures var step := CandidatesLoaded(employees, response);
      && Requests(step.effects) == [Request(Get, "/api/employees/unregistered", None)]
      && (response.Ok? ==> step.state == response.data && |step.effects| == 1)
      && (response.Failed? ==> step.state == employees && step.effects[1] == Alert(EmployeesFailedText))
  {
    var request: Effect<Body> := Send(Request(Get, "/api/employees/unregistered", None));
    RequestsOfConcat([request], [Alert(EmployeesFailedText)]);
    assert [request, Alert(EmployeesFailedText)] == [request] + [Alert(EmployeesFailedText)];
  }

  const TakenText := "Username is already taken."
  const CheckPath := "/api/users/check-username"

  /** The availability-check effect on a new username, given whether the server answered
      `true` (taken), anything else, or failed. It returns the new `usernameError`. The
      guard `username.trim().length > 0` is stated as "not blank"; `UsernameCheckOutcome`
      shows the two agree. */
  function UsernameChecked(username: string, usernameError: string, response: Response<bool>): Step<string, Body> {
    if !IsBlank(username) then
      Step(match response
           case Ok(taken) => if taken then TakenText else ""
           case Failed(_) => usernameError,
           [Send(Request(Get, CheckPath, Some(UsernameQuery(username))))])
    else Step(usernameError, [])
  }

  /** The check is sent, with the username as typed, exactly when the trimmed username is
      not empty; the answer `true` sets the error, any other answer clears it, and a failed
      check leaves it. */
  lemma UsernameCheckOutcome(username: string, usernameError: string, response: Response<bool>)
    ensures var step := UsernameChecked(username, usernameError, response);
      && (|Trim(username)| > 0 ==>
            && step.effects == [Send(Request(Get, CheckPath, Some(UsernameQuery(username))))]
            && (response == Ok(true) ==> step.state == TakenText)
            && (response == Ok(false) ==> step.state == "")
            && (response.Failed? ==> step.state == usernameError))
      && (|Trim(username)| == 0 ==> step.effects == [] && step.state == usernameError)
  {
    TrimEmptyIffBlank(username);
  }

  /** A username that trims to nothing does not clear an earlier "taken" error. */
  lemma BlankUsernameKeepsError(username: string, response: Response<bool>)
    requires Trim(username) == ""
    ensures UsernameChecked(username, TakenText, response) == Step(TakenText, [])
  {
    TrimEmptyIffBlank(username);
  }

  /** The three inputs of the form. */
  datatype Form = Form(username: string, password: string, confirmPassword: string)

  /** The state `handleRegister` reads and writes. */
  datatype Registering = Registering(selectedEmployeeId: string, form: Form, usernameError: string, passwordError: string)

  /** Which check of `handleRegister` ends the submit, in the order they run. */
  datatype Verdict = TooShort | Mismatch | UsernameBlocked | Accepted

  function Validate(s: Registering): Verdict {
    if Utf16Length(s.form.password) < 8 then TooShort
    else if s.form.password != s.form.confirmPassword then Mismatch
    else if s.usernameError != "" then UsernameBlocked
    else Accepted
  }

  lemma AcceptedIff(s: Registering)
    ensures Validate(s) == Accepted <==>
      Utf16Length(s.form.password) >= 8 && s.form.password == s.form.confirmPassword && s.usernameError == ""
  {
  }

  /** The length check counts UTF-16 code units: four emoji pass it, four letters do not. */
  lemma LengthCountsCodeUnits(s: Registering)
    ensures Utf16Length("\U{1F600}\U{1F600}\U{1F600}\U{1F600}") == 8
    ensures s.form.password == "abcd" ==> Validate(s) == TooShort
  {
    Utf16LengthOfBmp("abcd");
  }

  const ShortText := "Password must be at least 8 characters."
  const MismatchText := "Passwords do not match."
  const RegisterPath := "/api/users/register-from-employee"
  const AfterRegisterPath := "/remove-user"

  function RegistrationRequest(s: Registering): Request<Body> {
    Request(Post, RegisterPath, Some(Registration(s.selectedEmployeeId, s.form.username, s.form.password)))
  }

  /** `handleRegister`, given the outcome of the registration request when one is made;
      a failed registration is only logged to the console. */
  function Registered(s: Registering, response: Response<()>): Step<Registering, Body> {
    match Validate(s)
    case TooShort => Step(s.(passwordError := ShortText), [])
    case Mismatch => Step(s.(passwordError := MismatchText), [])
    case UsernameBlocked => Step(s.(passwordError := ""), [])
    case Accepted =>
      Step(s.(passwordError := ""),
           [Send(RegistrationRequest(s))] + if response.Ok? then [Navigate(AfterRegisterPath)] else [])
  }

  /** Registering changes nothing but `passwordError`. */
  lemma RegisterTouchesOnlyPasswordError(s: Registering, response: Response<()>)
    ensures Registered(s, response).state == s.(passwordError := Registered(s, response).state.passwordError)
  {
  }

  /** A password shorter than 8 characters is reported first, whatever else the form
      holds, and nothing is sent. */
  lemma ShortPasswordRejectedFirst(s: Registering, response: Response<()>)
    requires Utf16Length(s.form.password) < 8
    ensures Registered(s, response) == Step(s.(passwordError := ShortText), [])
  {
  }

  /** Passing the length check clears the password error; a mismatch then sets its own
      message and nothing is sent. */
  lemma MismatchAfterLength(s: Registering, response: Response<()>)
    requires Utf16Length(s.form.password) >= 8 && s.form.password != s.form.confirmPassword
    ensures Registered(s, response) == Step(s.(passwordError := MismatchText), [])
  {
  }

  /** A username error blocks the registration silently: no request, and no message but
      the cleared password error. */
  lemma UsernameErrorBlocksSilently(s: Registering, response: Response<()>)
    requires Utf16Length(s.form.password) >= 8 && s.form.password == s.form.confirmPassword
    requires s.usernameError != ""
    ensures Registered(s, response) == Step(s.(passwordError := ""), [])
  {
  }

  /** A request is sent exactly when every check passes, and then it is the one POST with
      the selected employee, the username and the password; the screen moves on to the
      user list exactly when that request succeeds. */
  lemma OnlyAcceptedRegisters(s: Registering, response: Response<()>)
    ensures var step := Registered(s, response);
      && (Validate(s) == Accepted ==> Requests(step.effects) == [RegistrationRequest(s)])
      && (Validate(s) != Accepted ==> step.effects == [])
      && (Navigate(AfterRegisterPath) in step.effects <==> Validate(s) == Accepted && response.Ok?)
      && (step.state.passwordError == "" <==> Validate(s) == Accepted || Validate(s) == UsernameBlocked)
  {
    if Validate(s) == Accepted {
      var tail: seq<Effect<Body>> := if response.Ok? then [Navigate(AfterRegisterPath)] else [];
      RequestsOfConcat([Send(RegistrationRequest(s))], tail);
    }
  }

  /** The registration carries exactly what was typed, and never the confirmation. */
  lemma RegistrationCarriesForm(s: Registering)
    ensures var body := RegistrationRequest(s).payload.value;
      body.employeeId == s.selectedEmployeeId && body.username == s.form.username
      && body.password == s.form.password
  {
  }

  /** The component: its `useState` variables and a log of what it made visible outside. */
  class RegisterForm {
    var employees: seq<Candidate>
    var selectedEmployeeId: string
    var username: string
    var password: string
    var confirmPassword: string
    var usernameError: string
    var passwordError: string
    ghost var effects: seq<Effect<Body>>

    function Snapshot(): Registering
      reads this`selectedEmployeeId, this`username, this`password, this`confirmPassword,
            this`usernameError, this`passwordError
    {
      Registering(selectedEmployeeId, Form(username, password, confirmPassword), usernameError, passwordError)
    }

    /** Mounting the screen, with the stored role: the role gate, then the availability
        check on the empty username, which sends nothing. */
    constructor (role: Option<string>)
      ensures Snapshot() == Registering("", Form("", "", ""), "", "")
      ensures employees == [] && effects == RoleGate(role)
    {
      employees := [];
      selectedEmployeeId := "";
      username := "";
      password := "";
      confirmPassword := "";
      usernameError := "";
      passwordError := "";
      if role != Some("admin") {
        effects := [Navigate("/")];
      } else {
        effects := [];
      }
    }

    method LoadEmployees(response: Response<seq<Candidate>>)
      modifies this`employees, this`effects
      ensures employees == CandidatesLoaded(old(employees), response).state
      ensures effects == old(effects) + CandidatesLoaded(old(employees), response).effects
    {
      var request := Send(Request(Get, "/api/employees/unregistered", None));
      if response.Ok? {
        employees := response.data;
        effects := effects + [request];
      } else {
        effects := effects + [request, Alert(EmployeesFailedText)];
      }
    }

    method SelectEmployee(value: string)
      modifies this`selectedEmployeeId
      ensures Snapshot() == old(Snapshot()).(selectedEmployeeId := value)
    {
      selectedEmployeeId := value;
    }

    /** Typing in the username input. The availability effect runs only when the value
        actually changed, and `check` is the outcome of its request. */
    method ChangeUsername(value: string, check: Response<bool>)
      modifies this`username, this`usernameError, this`effects
      ensures username == value
      ensures value == old(username) ==> usernameError == old(usernameError) && effects == old(effects)
      ensures value != old(username) ==>
        && usernameError == UsernameChecked(value, old(usernameError), check).state
        && effects == old(effects) + UsernameChecked(value, old(usernameError), check).effects
      ensures selectedEmployeeId == old(selectedEmployeeId) && password == old(password)
      ensures confirmPassword == old(confirmPassword) && passwordError == old(passwordError)
    {
      var changed := value != username;
      username := value;
      if changed && !IsBlank(value) {
        effects := effects + [Send(Request(Get, CheckPath, Some(UsernameQuery(value))))];
        if check.Ok? {
          usernameError := if check.data then TakenText else "";
        }
      }
    }

    method ChangePassword(value: string)
      modifies this`password
      ensures Snapshot() == old(Snapshot()).(form := old(Snapshot()).form.(password := value))
    {
      password := value;
    }

    method ChangeConfirmPassword(value: string)
      modifies this`confirmPassword
      ensures Snapshot() == old(Snapshot()).(form := old(Snapshot()).form.(confirmPassword := value))
    {
      confirmPassword := value;
    }

    /** `handleRegister`: the early returns in their order, then the registration. */
    method HandleRegister(response: Response<()>)
      modifies this`passwordError, this`effects
      ensures Snapshot() == Registered(old(Snapshot()), response).state
      ensures effects == old(effects) + Registered(old(Snapshot()), response).effects
    {
      if Utf16Length(password) < 8 {
        passwordError := ShortText;
        return;
      } else {
        passwordError := "";
      }
      if password != confirmPassword {
        passwordError := MismatchText;
        return;
      }
      if usernameError != "" {
        return;
      }
      var request := Request(Post, RegisterPath, Some(Registration(selectedEmployeeId, username, password)));
      if response.Ok? {
        effects := effects + [Send(request), Navigate(AfterRegisterPath)];
      } else {
        effects := effects + [Send(request)];
      }
    }
  }
}
