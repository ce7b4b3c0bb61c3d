/**
 * The user-management panel of the settings page: the search filter over
 * the listed users, the create/edit form and the request it sends, the
 * active-flag toggle and the password-reset prompt.
 */
module UserAdmin {
  import opened Base
  import opened Js
  import opened Models
  import opened UsersApi

  /** The case-insensitive search: the name or the email contains the query. */
  predicate Matches(u: PublicUser, search: string) {
    Contains(ToLower(u.name), ToLower(search)) || Contains(ToLower(u.email), ToLower(search))
  }

  /** `filteredUsers`: the listed users the search matches, in list order. */
  function Filtered(users: seq<PublicUser>, search: string): seq<PublicUser>
    decreases |users|
  {
    if users == [] then []
    else (if Matches(users[0], search) then [users[0]] else []) + Filtered(users[1..], search)
  }

  /** What the form's submit sends: a PUT of the role when editing, otherwise a POST of the whole form. */
  datatype Request = CreateRequest(create: CreateBody) | UpdateRequest(update: UpdateBody)

  function Submission(editing: Option<PublicUser>, name: string, email: string, password: string, role: string)
    : (r: Request)
    ensures editing.Some? <==> r.UpdateRequest?
    ensures editing.Some? ==> r.update == UpdateBody(UserRef(editing.value.id, true), Str(role), Bool(editing.value.isActive))
    ensures editing.None? ==> r.create == CreateBody(Str(name), Str(email), Str(password), Str(role))
  {
    match editing
    case Some(e) => UpdateRequest(UpdateBody(UserRef(e.id, true), Str(role), Bool(e.isActive)))
    case None => CreateRequest(CreateBody(Str(name), Str(email), Str(password), Str(role)))
  }

  /** `handleToggleStatus`: a PUT of the negated flag and nothing else. */
  function ToggleBody(u: PublicUser): UpdateBody {
    UpdateBody(UserRef(u.id, true), Undefined, Bool(!u.isActive))
  }

  /** What a toggle does: the request sent, the toast shown and whether the list is refetched. */
  datatype Toggled = Toggled(sent: Option<UpdateBody>, toast: Option<Toast>, refresh: bool)

  /**
   * `handleToggleStatus`: a cancelled confirm sends nothing; `reply` is the
   * route's answer, `None` when the request itself fails, which is only
   * logged. An ok reply refetches the list, a refusal toasts its error.
   */
  function ToggleStatus(u: PublicUser, confirmed: bool, reply: Option<Http<PublicUser>>): (r: Toggled)
    ensures r.sent.Some? <==> confirmed
    ensures r.sent.Some? ==>
      r.sent.value.isActive == Bool(!u.isActive) && r.sent.value.role.Undefined?
      && r.sent.value.id == UserRef(u.id, true)
    ensures r.refresh <==> confirmed && reply.Some? && reply.value.Ok?
    ensures r.toast.Some? <==> confirmed && reply.Some? && reply.value.Err?
    ensures r.toast.Some? ==>
      r.toast.value.kind == Error
      && r.toast.value.message == (if reply.value.message == "" then "Operation failed" else reply.value.message)
  {
    if !confirmed then Toggled(None, None, false)
    else if reply.None? then Toggled(Some(ToggleBody(u)), None, false)
    else if reply.value.Ok? then Toggled(Some(ToggleBody(u)), None, true)
    else Toggled(Some(ToggleBody(u)), Some(ErrorToast(reply.value.message)), false)
  }

  /** `handleResetPassword`: a cancelled or empty prompt sends nothing. */
  function ResetRequest(u: PublicUser, answer: Option<string>): (r: Option<ResetBody>)
    ensures r.Some? <==> answer.Some? && answer.value != ""
    ensures r.Some? ==> r.value == ResetBody(UserRef(u.id, true), Str(answer.value))
  {
    if answer.None? || answer.value == "" then None else Some(ResetBody(UserRef(u.id, true), Str(answer.value)))
  }

  datatype ToastKind = Success | Error | Info

  datatype Toast = Toast(message: string, kind: ToastKind)

  /** `err.error || 'Operation failed'` */
  function ErrorToast(message: string): Toast {
    Toast(if message == "" then "Operation failed" else message, Error)
  }

  class Panel {
    var users: seq<PublicUser>
    var search: string
    var name: string
    var email: string
    var password: string
    var role: string
    var editing: Option<PublicUser>
    var modalOpen: bool
    var submitting: bool

    constructor ()
      ensures users == [] && search == "" && editing.None? && !modalOpen && !submitting
      ensures name == "" && email == "" && password == "" && role == DefaultRole
    {
      users, search, editing, modalOpen, submitting := [], "", None, false, false;
      name, email, password, role := "", "", "", DefaultRole;
    }

    /** `resetForm` */
    method ResetForm()
      modifies this
      ensures name == "" && email == "" && password == "" && role == DefaultRole && editing.None?
      ensures users == old(users) && search == old(search) && modalOpen == old(modalOpen)
      ensures submitting == old(submitting)
    {
      name, email, password, role, editing := "", "", "", DefaultRole, None;
    }

    /** The "Create User" button: a blank form in create mode. */
    method OpenCreate()
      modifies this
      ensures name == "" && email == "" && password == "" && role == DefaultRole && editing.None? && modalOpen
      ensures users == old(users) && search == old(search) && submitting == old(submitting)
    {
      ResetForm();
      modalOpen := true;
    }

    /** `openEdit`: the form takes the user's name, email and role; the password field is left as it was. */
    method OpenEdit(u: PublicUser)
      modifies this
      ensures editing == Some(u) && name == u.name && email == u.email && role == u.role && modalOpen
      ensures password == old(password) && users == old(users) && search == old(search)
      ensures submitting == old(submitting)
    {
      editing, name, email, role, modalOpen := Some(u), u.name, u.email, u.role, true;
    }

    /** `fetchUsers`: an ok reply replaces the list; anything else keeps it. */
    method Fetched(reply: Option<Http<seq<PublicUser>>>)
      modifies this
      ensures users == (if reply.Some? && reply.value.Ok? then reply.value.value else old(users))
      ensures search == old(search) && name == old(name) && email == old(email) && password == old(password)
      ensures role == old(role) && editing == old(editing) && modalOpen == old(modalOpen)
      ensures submitting == old(submitting)
    {
      if reply.Some? && reply.value.Ok? {
        users := reply.value.value;
      }
    }

    /**
     * `handleSubmit`: sends the form's request; `reply` is the route's
     * answer, `None` when the request itself fails. Success closes the
     * modal, resets the form and asks for a refresh; a refusal keeps the
     * form open as it was.
     */
    method HandleSubmit(reply: Option<Http<PublicUser>>) returns (sent: Request, toast: Toast, refresh: bool)
      modifies this
      ensures sent == Submission(old(editing), old(name), old(email), old(password), old(role))
      ensures refresh <==> reply.Some? && reply.value.Ok?
      ensures refresh ==> toast == Toast(if old(editing).Some? then "User updated successfully"
                                         else "User created successfully", Success)
      ensures refresh ==> !modalOpen && editing.None? && name == "" && email == "" && password == ""
                          && role == DefaultRole
      ensures reply.Some? && reply.value.Err? ==> toast == ErrorToast(reply.value.message)
      ensures reply.None? ==> toast == Toast("An error occurred", Error)
      ensures !refresh ==> (modalOpen == old(modalOpen) && editing == old(editing) && name == old(name)
                            && email == old(email) && password == old(password) && role == old(role))
      ensures users == old(users) && search == old(search) && !submitting
    {
      submitting := true;
      sent := Submission(editing, name, email, password, role);
      refresh := false;
      if reply.None? {
        toast := Toast("An error occurred", Error);
      } else if reply.value.Err? {
        toast := ErrorToast(reply.value.message);
      } else {
        toast := Toast(if editing.Some? then "User updated successfully" else "User created successfully", Success);
        modalOpen := false;
        ResetForm();
        refresh := true;
      }
      submitting := false;
    }
  }

  // -------------------------------------------------------------------- lemmas

  /**
   * A user is shown exactly when listed and matched; the filter keeps list
   * order, since it distributes over concatenation.
   */
  lemma {:induction false} FilteredSpec(users: seq<PublicUser>, search: string, u: PublicUser)
    ensures u in Filtered(users, search) <==> u in users && Matches(u, search)
    ensures |Filtered(users, search)| <= |users|
    decreases |users|
  {
    if users != [] {
      FilteredSpec(users[1..], search, u);
      assert u in users <==> u == users[0] || u in users[1..];
    }
  }

  lemma {:induction false} FilteredAppend(a: seq<PublicUser>, b: seq<PublicUser>, search: string)
    ensures Filtered(a + b, search) == Filtered(a, search) + Filtered(b, search)
    decreases |a|
  {
    if a == [] {
      assert a + b == b;
    } else {
      FilteredAppend(a[1..], b, search);
      assert (a + b)[0] == a[0];
      assert (a + b)[1..] == a[1..] + b;
    }
  }

  /** An empty search matches everyone: the whole list is shown. */
  lemma {:induction false} EmptySearchShowsAll(users: seq<PublicUser>)
    ensures Filtered(users, "") == users
    decreases |users|
  {
    if users != [] {
      assert Matches(users[0], "");
      EmptySearchShowsAll(users[1..]);
      assert [users[0]] + users[1..] == users;
    }
  }

  /** The query's case does not matter: searching its lower-case form shows the same users. */
  lemma {:induction false} SearchIgnoresCase(users: seq<PublicUser>, search: string)
    ensures Filtered(users, ToLower(search)) == Filtered(users, search)
    decreases |users|
  {
    LowerKeepsSpaces(search);
    ToLowerUnchanged(ToLower(search));
    if users != [] {
      SearchIgnoresCase(users[1..], search);
    }
  }

  /**
   * Submitting an edit sends the flag the panel shows, so a successful edit
   * of a freshly listed user changes at most its role, and with an empty
   * role field nothing at all.
   */
  lemma EditChangesRoleOnly(stored: seq<User>, session: Option<Session>, e: PublicUser, name: string, email: string,
                            password: string, role: string, i: nat)
    requires i < |stored| && stored[i].id == e.id && stored[i].isActive == e.isActive
    requires Distinct(stored, UserId)
    ensures var (after, reply) := UpdateOutcome(stored, session, Submission(Some(e), name, email, password, role).update);
      reply.Ok? ==>
        after == stored[i := stored[i].(role := if role == "" then stored[i].role else role)]
  {
    var b := Submission(Some(e), name, email, password, role).update;
    var (after, reply) := UpdateOutcome(stored, session, b);
    if reply.Ok? {
      var j := Find(stored, e.id).value;
      assert j == i;
    }
  }

  /**
   * A toggle that succeeds flips the flag of that user and keeps its role;
   * an ADMIN toggling their own active account is refused.
   */
  lemma ToggleFlips(stored: seq<User>, session: Option<Session>, u: PublicUser, i: nat)
    requires i < |stored| && stored[i].id == u.id && stored[i].isActive == u.isActive
    requires Distinct(stored, UserId)
    ensures var (after, reply) := UpdateOutcome(stored, session, ToggleBody(u));
      reply.Ok? ==> after == stored[i := stored[i].(isActive := !u.isActive)]
    ensures IsAdmin(session) && session.value.userId == u.id && u.isActive ==>
      UpdateOutcome(stored, session, ToggleBody(u)) == (stored, Err(400, "Cannot deactivate your own admin account"))
  {
    var (after, reply) := UpdateOutcome(stored, session, ToggleBody(u));
    if reply.Ok? {
      var j := Find(stored, u.id).value;
      assert j == i;
    }
  }

  /** Toggling twice from the same listing state gives back the stored user. */
  lemma ToggleTwice(u: User)
    ensures var once := Patched(u, ToggleBody(Public(u)));
      Patched(once, ToggleBody(Public(once))) == u
  {
  }

  /** A new user submitted with any field left empty is refused as missing fields. */
  lemma EmptyFieldRefused(stored: seq<User>, session: Option<Session>, name: string, email: string, password: string,
                          role: string, hashed: string, id: Id, now: Time)
    requires IsAdmin(session) && (name == "" || email == "" || password == "" || role == "")
    ensures CreateOutcome(stored, session, Submission(None, name, email, password, role).create, hashed, id, now)
      == (stored, Err(400, MissingFields))
  {
  }
}
