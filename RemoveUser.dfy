/** The "Manage Users" screen: the user list with a Delete and a Make Admin button per
    user, the rule that protects the superuser and the logged-in user from deletion, and
    the message each action leaves on screen. */
module RemoveUser {
  import opened Common
  import opened JsText

  /** A user as `GET /api/users` lists it. */
  datatype User = User(userId: int, username: string, role: string)

  /** The account that can never be deleted from this screen. */
  const Superuser := "h_malik"

  /** `isProtected`; `loggedIn` is `localStorage.getItem('username')`, `None` when absent. */
  predicate IsProtected(u: User, loggedIn: Option<string>) {
    u.username == Superuser || loggedIn == Some(u.username)
  }

  /** What a button shows and whether it can be clicked. */
  datatype Button = Button(caption: string, disabled: bool)

  function DeleteButton(u: User, loggedIn: Option<string>): Button {
    if IsProtected(u, loggedIn) then Button("Protected", true) else Button("Delete", false)
  }

  function MakeAdminButton(u: User): Button {
    if u.role == "admin" then Button("Already Admin", true) else Button("Make Admin", false)
  }

  /** The Delete button is disabled, and reads "Protected", exactly for a protected user;
      the Make Admin button is disabled, and reads "Already Admin", exactly for an admin. */
  lemma ButtonsFollowRules(u: User, loggedIn: Option<string>)
    ensures DeleteButton(u, loggedIn).disabled <==> u.username == "h_malik" || loggedIn == Some(u.username)
    ensures DeleteButton(u, loggedIn).caption == "Protected" <==> DeleteButton(u, loggedIn).disabled
    ensures MakeAdminButton(u).disabled <==> u.role == "admin"
    ensures MakeAdminButton(u).caption == "Already Admin" <==> MakeAdminButton(u).disabled
  {
  }

  /** The users on screen and the message above them. */
  datatype Panel = Panel(users: seq<User>, message: string)

  const InitialPanel := Panel([], "")

  const LoadFailedText := "Failed to load users."
  const DeleteFailedText := "Failed to delete user."
  const PromoteFailedText := "Failed to promote user."

  function ListRequest(): Request<()> {
    Request(Get, "/api/users", None)
  }

  function DeleteRequest(userId: int): Request<()> {
    Request(Delete, "/api/users/" + IntToString(userId), None)
  }

  function PromoteRequest(userId: int): Request<()> {
    Request(Put, "/api/users/" + IntToString(userId) + "/make-admin", None)
  }

  function DeletedText(userId: int): string {
    "User with ID " + IntToString(userId) + " deleted."
  }

  function PromotedText(userId: int): string {
    "User with ID " + IntToString(userId) + " promoted to admin."
  }

  /** `fetchUsers`: the list is replaced on success; a failure sets its message and keeps
      the list. */
  function Fetched(p: Panel, response: Response<seq<User>>): Step<Panel, ()> {
    match response
    case Ok(users) => Step(p.(users := users), [Send(ListRequest())])
    case Failed(_) => Step(p.(message := LoadFailedText), [Send(ListRequest())])
  }

  lemma FetchOutcome(p: Panel, response: Response<seq<User>>)
    ensures Fetched(p, response).effects == [Send(ListRequest())]
    ensures response.Ok? ==> Fetched(p, response).state == Panel(response.data, p.message)
    ensures response.Failed? ==> Fetched(p, response).state == Panel(p.users, LoadFailedText)
  {
  }

  /** `handleDelete`, given the answer to the confirmation, the outcome of the delete and
      the outcome of the refetch that follows a successful one. */
  function Deleted(p: Panel, userId: int, confirmed: bool, response: Response<()>, reload: Response<seq<User>>): Step<Panel, ()> {
    if !confirmed then Step(p, [])
    else match response
      case Ok(_) =>
        var refetch := Fetched(p.(message := DeletedText(userId)), reload);
        Step(refetch.state, [Send(DeleteRequest(userId))] + refetch.effects)
      case Failed(_) => Step(p.(message := DeleteFailedText), [Send(DeleteRequest(userId))])
  }

  /** `handleMakeAdmin`, given the outcome of the promotion and of the refetch that
      follows a successful one. */
  function Promoted(p: Panel, userId: int, response: Response<()>, reload: Response<seq<User>>): Step<Panel, ()> {
    match response
    case Ok(_) =>
      var refetch := Fetched(p.(message := PromotedText(userId)), reload);
      Step(refetch.state, [Send(PromoteRequest(userId))] + refetch.effects)
    case Failed(_) => Step(p.(message := PromoteFailedText), [Send(PromoteRequest(userId))])
  }

  /** Declining the confirmation sends nothing and leaves the list and the message. */
  lemma DeclinedDeleteChangesNothing(p: Panel, userId: int, response: Response<()>, reload: Response<seq<User>>)
    ensures Deleted(p, userId, false, response, reload) == Step(p, [])
  {
  }

  /** A confirmed delete sends the DELETE for that user; on success the message names the
      user and the list is refetched (a failed refetch then reports its own message), on
      failure the failure message is set and nothing is refetched. */
  lemma DeleteOutcome(p: Panel, userId: int, response: Response<()>, reload: Response<seq<User>>)
    ensures var step := Deleted(p, userId, true, response, reload);
      && (response.Ok? ==> Requests(step.effects) == [DeleteRequest(userId), ListRequest()])
      && (response.Ok? && reload.Ok? ==> step.state == Panel(reload.data, DeletedText(userId)))
      && (response.Ok? && reload.Failed? ==> step.state == Panel(p.users, LoadFailedText))
      && (response.Failed? ==> Requests(step.effects) == [DeleteRequest(userId)])
      && (response.Failed? ==> step.state == Panel(p.users, DeleteFailedText))
  {
    RequestsOfConcat([Send(DeleteRequest(userId))], [Send(ListRequest())]);
  }

  /** The promotion behaves like the delete, without a confirmation. */
  lemma PromoteOutcome(p: Panel, userId: int, response: Response<()>, reload: Response<seq<User>>)
    ensures var step := Promoted(p, userId, response, reload);
      && (response.Ok? ==> Requests(step.effects) == [PromoteRequest(userId), ListRequest()])
      && (response.Ok? && reload.Ok? ==> step.state == Panel(reload.data, PromotedText(userId)))
      && (response.Ok? && reload.Failed? ==> step.state == Panel(p.users, LoadFailedText))
      && (response.Failed? ==> Requests(step.effects) == [PromoteRequest(userId)])
      && (response.Failed? ==> step.state == Panel(p.users, PromoteFailedText))
  {
    RequestsOfConcat([Send(PromoteRequest(userId))], [Send(ListRequest())]);
  }

  /** A click on a user's Delete button: a disabled button does nothing. */
  function ClickedDelete(p: Panel, loggedIn: Option<string>, u: User, confirmed: bool,
                         response: Response<()>, reload: Response<seq<User>>): Step<Panel, ()> {
    if DeleteButton(u, loggedIn).disabled then Step(p, [])
    else Deleted(p, u.userId, confirmed, response, reload)
  }

  /** A click on a user's Make Admin button: a disabled button does nothing. */
  function ClickedMakeAdmin(p: Panel, u: User, response: Response<()>, reload: Response<seq<User>>): Step<Panel, ()> {
    if MakeAdminButton(u).disabled then Step(p, [])
    else Promoted(p, u.userId, response, reload)
  }

  /** No click can delete the superuser or the logged-in user. */
  lemma ProtectedNeverDeleted(p: Panel, loggedIn: Option<string>, u: User, confirmed: bool,
                              response: Response<()>, reload: Response<seq<User>>)
    requires IsProtected(u, loggedIn)
    ensures ClickedDelete(p, loggedIn, u, confirmed, response, reload) == Step(p, [])
  {
  }

  /** Any other user is deleted once the confirmation is accepted. */
  lemma UnprotectedDeletedOnConfirm(p: Panel, loggedIn: Option<string>, u: User,
                                    response: Response<()>, reload: Response<seq<User>>)
    requires !IsProtected(u, loggedIn)
    ensures Requests(ClickedDelete(p, loggedIn, u, true, response, reload).effects)[0] == DeleteRequest(u.userId)
  {
    var step := Deleted(p, u.userId, true, response, reload);
    var rest := step.effects[1..];
    assert step.effects == [Send(DeleteRequest(u.userId))] + rest;
    RequestsOfConcat([Send(DeleteRequest(u.userId))], rest);
  }

  /** No click promotes a user who is already an admin. */
  lemma AdminNeverPromoted(p: Panel, u: User, response: Response<()>, reload: Response<seq<User>>)
    requires u.role == "admin"
    ensures ClickedMakeAdmin(p, u, response, reload) == Step(p, [])
  {
  }

  /** The success message names the user: different ids give different messages. */
  lemma DeletedTextNamesUser(a: int, b: int)
    requires DeletedText(a) == DeletedText(b)
    ensures a == b
  {
    var prefix := "User with ID ";
    var suffix := " deleted.";
    assert IntToString(a) == DeletedText(a)[|prefix|..|DeletedText(a)| - |suffix|];
    assert IntToString(b) == DeletedText(b)[|prefix|..|DeletedText(b)| - |suffix|];
    ParseIntOfIntToString(a);
    ParseIntOfIntToString(b);
  }

  lemma PromotedTextNamesUser(a: int, b: int)
    requires PromotedText(a) == PromotedText(b)
    ensures a == b
  {
    var prefix := "User with ID ";
    var suffix := " promoted to admin.";
    assert IntToString(a) == PromotedText(a)[|prefix|..|PromotedText(a)| - |suffix|];
    assert IntToString(b) == PromotedText(b)[|prefix|..|PromotedText(b)| - |suffix|];
    ParseIntOfIntToString(a);
    ParseIntOfIntToString(b);
  }

  /** The component: its `useState` variables, the logged-in username read on render, and
      a log of what it made visible outside. */
  class UserManager {
    const loggedInUsername: Option<string>
    var users: seq<User>
    var message: string
    ghost var effects: seq<Effect<()>>

    function Snapshot(): Panel
      reads this`users, this`message
    {
      Panel(users, message)
    }

    constructor (loggedInUsername: Option<string>)
      ensures this.loggedInUsername == loggedInUsername
      ensures Snapshot() == InitialPanel && effects == []
    {
      this.loggedInUsername := loggedInUsername;
      users := [];
      message := "";
      effects := [];
    }

    /** `fetchUsers`, run on mount and after each successful action. */
    method FetchUsers(response: Response<seq<User>>)
      modifies this`users, this`message, this`effects
      ensures Snapshot() == Fetched(old(Snapshot()), response).state
      ensures effects == old(effects) + Fetched(old(Snapshot()), response).effects
    {
      effects := effects + [Send(ListRequest())];
      match response {
        case Ok(data) => users := data;
        case Failed(_) => message := LoadFailedText;
      }
    }

    method HandleDelete(userId: int, confirmed: bool, response: Response<()>, reload: Response<seq<User>>)
      modifies this`users, this`message, this`effects
      ensures Snapshot() == Deleted(old(Snapshot()), userId, confirmed, response, reload).state
      ensures effects == old(effects) + Deleted(old(Snapshot()), userId, confirmed, response, reload).effects
    {
      if !confirmed {
        return;
      }
      effects := effects + [Send(DeleteRequest(userId))];
      if response.Ok? {
        message := "User with ID " + IntToString(userId) + " deleted.";
        FetchUsers(reload);
      } else {
        message := DeleteFailedText;
      }
    }

    method HandleMakeAdmin(userId: int, response: Response<()>, reload: Response<seq<User>>)
      modifies this`users, this`message, this`effects
      ensures Snapshot() == Promoted(old(Snapshot()), userId, response, reload).state
      ensures effects == old(effects) + Promoted(old(Snapshot()), userId, response, reload).effects
    {
      effects := effects + [Send(PromoteRequest(userId))];
      if response.Ok? {
        message := "User with ID " + IntToString(userId) + " promoted to admin.";
        FetchUsers(reload);
      } else {
        message := PromoteFailedText;
      }
    }

    /** A click on the Delete button of `u`'s row. */
    method ClickDelete(u: User, confirmed: bool, response: Response<()>, reload: Response<seq<User>>)
      modifies this`users, this`message, this`effects
      ensures Snapshot() == ClickedDelete(old(Snapshot()), loggedInUsername, u, confirmed, response, reload).state
      ensures effects == old(effects) + ClickedDelete(old(Snapshot()), loggedInUsername, u, confirmed, response, reload).effects
    {
      if !DeleteButton(u, loggedInUsername).disabled {
        HandleDelete(u.userId, confirmed, response, reload);
      }
    }

    /** A click on the Make Admin button of `u`'s row. */
    method ClickMakeAdmin(u: User, response: Response<()>, reload: Response<seq<User>>)
      modifies this`users, this`message, this`effects
      ensures Snapshot() == ClickedMakeAdmin(old(Snapshot()), u, response, reload).state
      ensures effects == old(effects) + ClickedMakeAdmin(old(Snapshot()), u, response, reload).effects
    {
      if !MakeAdminButton(u).disabled {
        HandleMakeAdmin(u.userId, response, reload);
      }
    }
  }
}
