/**
 * `/api/users` and `/api/users/reset-password`: an ADMIN lists the staff
 * accounts (GET), creates one (POST), changes a role or the active flag
 * (PUT) and sets a new password. No reply ever carries a password.
 */
module UsersApi {
  import opened Base
  import opened Js
  import opened Models
  import opened Ordering
  import opened Db

  /** A user document with `password` deselected. */
  datatype PublicUser = PublicUser(id: Id, name: string, email: string, role: string, isActive: bool, createdAt: Time)

  function Public(u: User): (p: PublicUser)
    ensures p.id == u.id && p.name == u.name && p.email == u.email && p.role == u.role
    ensures p.isActive == u.isActive && p.createdAt == u.createdAt
  {
    PublicUser(u.id, u.name, u.email, u.role, u.isActive, u.createdAt)
  }

  predicate IsAdmin(session: Option<Session>) {
    session.Some? && session.value.role == "ADMIN"
  }

  const Forbidden: string := "Forbidden"
  const MissingFields: string := "Missing fields"
  const InternalError: string := "Internal Server Error"

  function Emails(users: seq<User>): set<string> {
    set i | 0 <= i < |users| :: users[i].email
  }

  /** `findById`: the position of the user with that id, if any. */
  function Find(users: seq<User>, id: Id): (r: Option<nat>)
    ensures r.Some? ==> r.value < |users| && users[r.value].id == id
    ensures r.None? ==> forall i :: 0 <= i < |users| ==> users[i].id != id
    decreases |users|
  {
    if users == [] then None
    else if users[0].id == id then Some(0)
    else match Find(users[1..], id)
      case Some(i) => Some(i + 1)
      case None => None
  }

  // ----------------------------------------------------------------------- GET

  function NewestFirst(u: PublicUser): Key {
    (-u.createdAt, 0)
  }

  function Publics(users: seq<User>): (r: seq<PublicUser>)
    ensures |r| == |users| && forall i :: 0 <= i < |users| ==> r[i] == Public(users[i])
  {
    seq(|users|, i requires 0 <= i < |users| => Public(users[i]))
  }

  /** GET: every user without the password, newest first; 403 for anyone but an ADMIN. */
  function List(users: seq<User>, session: Option<Session>): (r: Http<seq<PublicUser>>)
    ensures !IsAdmin(session) <==> r == Err(403, Forbidden)
    ensures r.Ok? ==> r.status == 200 && multiset(r.value) == multiset(Publics(users))
    ensures r.Ok? ==> forall i, j :: 0 <= i < j < |r.value| ==> r.value[i].createdAt >= r.value[j].createdAt
  {
    if !IsAdmin(session) then Err(403, Forbidden)
    else Ok(200, SortByKey(Publics(users), NewestFirst))
  }

  // ---------------------------------------------------------------------- POST

  /** The fields POST destructures from its body. */
  datatype CreateBody = CreateBody(name: Val, email: Val, password: Val, role: Val)

  /**
   * POST as a function of the stored users: the new users and the reply.
   * `hashed` is what `bcrypt.hash` makes of the password; it throws for a
   * password that is not a string. Mongoose casts the other fields to text;
   * a role outside the enum fails validation (500).
   */
  function CreateOutcome(users: seq<User>, session: Option<Session>, b: CreateBody, hashed: string, id: Id,
                         now: Time): (r: (seq<User>, Http<PublicUser>))
    ensures !IsAdmin(session) ==> r == (users, Err(403, Forbidden))
    ensures r.1.Err? ==> r.0 == users
    ensures r.1.Ok? ==>
      |r.0| == |users| + 1 && r.0[..|users|] == users && r.0[|users|].id == id
      && r.0[|users|].email == ValToString(b.email) && ValToString(b.email) !in Emails(users)
      && r.0[|users|].password == hashed && r.1 == Ok(201, Public(r.0[|users|]))
  {
    if !IsAdmin(session) then (users, Err(403, Forbidden))
    else if !(Truthy(b.name) && Truthy(b.email) && Truthy(b.password) && Truthy(b.role)) then
      (users, Err(400, MissingFields))
    else if ValToString(b.email) in Emails(users) then (users, Err(400, "User already exists"))
    else if !b.password.Str? then (users, Err(500, InternalError))
    else
      match NewUser(id, UserInput(ValToString(b.name), ValToString(b.email), hashed, Some(ValToString(b.role)),
                                  Some(true)), now)
      case None => (users, Err(500, InternalError))
      case Some(u) => (users + [u], Ok(201, Public(u)))
  }

  method Post(db: Store, session: Option<Session>, b: CreateBody, hashed: string, now: Time)
    returns (reply: Http<PublicUser>)
    requires db.Valid()
    modifies db
    ensures db.Valid()
    ensures (db.users, reply) == CreateOutcome(old(db.users), session, b, hashed, old(db.nextId), now)
    ensures db.nextId == old(db.nextId) + (if reply.Ok? then 1 else 0)
    ensures db.groups == old(db.groups) && db.units == old(db.units) && db.requests == old(db.requests)
    ensures db.supplierInvoices == old(db.supplierInvoices) && db.sales == old(db.sales)
    ensures db.settings == old(db.settings)
  {
    if !IsAdmin(session) {
      return Err(403, Forbidden);
    }
    if !(Truthy(b.name) && Truthy(b.email) && Truthy(b.password) && Truthy(b.role)) {
      return Err(400, MissingFields);
    }
    var email := ValToString(b.email);
    if email in Emails(db.users) {
      return Err(400, "User already exists");
    }
    if !b.password.Str? {
      return Err(500, InternalError);
    }
    var made := NewUser(db.nextId, UserInput(ValToString(b.name), email, hashed, Some(ValToString(b.role)),
                                             Some(true)), now);
    if made.None? {
      return Err(500, InternalError);
    }
    Insert(db, made.value);
    reply := Ok(201, Public(made.value));
  }

  /** The insert itself: the user goes at the end under the next id. */
  method Insert(db: Store, u: User)
    requires db.Valid() && u.id == db.nextId && u.email !in Emails(db.users)
    modifies db
    ensures db.Valid()
    ensures db.users == old(db.users) + [u] && db.nextId == old(db.nextId) + 1
    ensures db.groups == old(db.groups) && db.units == old(db.units) && db.requests == old(db.requests)
    ensures db.supplierInvoices == old(db.supplierInvoices) && db.sales == old(db.sales)
    ensures db.settings == old(db.settings)
  {
    assert forall i :: 0 <= i < |db.users| ==> db.users[i].email in Emails(db.users);
    DistinctAppend(db.users, UserId, u);
    DistinctAppend(db.users, Email, u);
    db.users := db.users + [u];
    db.nextId := db.nextId + 1;
  }

  // ----------------------------------------------------------------------- PUT

  /**
   * The `id` of a body: missing or falsy, text that is not an ObjectId
   * (the cast throws: 500), or the id of a document. The cast accepts hex
   * digits in either case; `canonical` says whether the text is the id's
   * lower-case spelling, the one the session carries.
   */
  datatype IdField = NoId | Malformed(text: string) | UserRef(id: Id, canonical: bool)

  /** `id === session.user.id`: the texts agree only for the canonical spelling of the same id. */
  predicate SameText(f: IdField, s: Session) {
    f.UserRef? && f.canonical && f.id == s.userId
  }

  datatype UpdateBody = UpdateBody(id: IdField, role: Val, isActive: Val)

  /** `$set: updateData`: the role when it is truthy, the flag when it is a boolean; no validators run. */
  function Patched(u: User, b: UpdateBody): User {
    u.(role := if Truthy(b.role) then ValToString(b.role) else u.role,
       isActive := if b.isActive.Bool? then b.isActive.b else u.isActive)
  }

  /** PUT as a function of the stored users: the new users and the reply. */
  function UpdateOutcome(users: seq<User>, session: Option<Session>, b: UpdateBody): (r: (seq<User>, Http<PublicUser>))
    ensures !IsAdmin(session) ==> r == (users, Err(403, Forbidden))
    ensures |r.0| == |users|
    ensures r.1.Err? ==> r.0 == users
  {
    if !IsAdmin(session) then (users, Err(403, Forbidden))
    else if b.id.NoId? then (users, Err(400, "Missing User ID"))
    else if SameText(b.id, session.value) && b.isActive == Bool(false) then
      (users, Err(400, "Cannot deactivate your own admin account"))
    else if b.id.Malformed? then (users, Err(500, InternalError))
    else
      match Find(users, b.id.id)
      case None => (users, Err(404, "User not found"))
      case Some(i) =>
        var u := Patched(users[i], b);
        (users[i := u], Ok(200, Public(u)))
  }

  method Put(db: Store, session: Option<Session>, b: UpdateBody) returns (reply: Http<PublicUser>)
    requires db.Valid()
    modifies db
    ensures db.Valid()
    ensures (db.users, reply) == UpdateOutcome(old(db.users), session, b)
    ensures db.groups == old(db.groups) && db.units == old(db.units) && db.requests == old(db.requests)
    ensures db.supplierInvoices == old(db.supplierInvoices) && db.sales == old(db.sales)
    ensures db.settings == old(db.settings) && db.nextId == old(db.nextId)
  {
    if !IsAdmin(session) {
      return Err(403, Forbidden);
    }
    if b.id.NoId? {
      return Err(400, "Missing User ID");
    }
    if SameText(b.id, session.value) && b.isActive == Bool(false) {
      return Err(400, "Cannot deactivate your own admin account");
    }
    if b.id.Malformed? {
      return Err(500, InternalError);
    }
    var found := Find(db.users, b.id.id);
    if found.None? {
      return Err(404, "User not found");
    }
    var u := Patched(db.users[found.value], b);
    Replace(db, found.value, u);
    reply := Ok(200, Public(u));
  }

  /** Overwrites one stored user with a document of the same id and email. */
  method Replace(db: Store, i: nat, u: User)
    requires db.Valid() && i < |db.users| && u.id == db.users[i].id && u.email == db.users[i].email
    modifies db
    ensures db.Valid()
    ensures db.users == old(db.users)[i := u]
    ensures db.groups == old(db.groups) && db.units == old(db.units) && db.requests == old(db.requests)
    ensures db.supplierInvoices == old(db.supplierInvoices) && db.sales == old(db.sales)
    ensures db.settings == old(db.settings) && db.nextId == old(db.nextId)
  {
    DistinctPointwise(db.users, db.users[i := u], UserId);
    DistinctPointwise(db.users, db.users[i := u], Email);
    db.users := db.users[i := u];
  }

  // ------------------------------------------------------------ reset-password

  datatype ResetBody = ResetBody(id: IdField, password: Val)

  const ResetDone: string := "Password reset successfully"

  /** The reset as a function of the stored users; a refusal here is 401, not 403. */
  function ResetOutcome(users: seq<User>, session: Option<Session>, b: ResetBody, hashed: string)
    : (r: (seq<User>, Http<string>))
    ensures !IsAdmin(session) ==> r == (users, Err(401, "Unauthorized"))
    ensures |r.0| == |users|
    ensures r.1.Err? ==> r.0 == users
  {
    if !IsAdmin(session) then (users, Err(401, "Unauthorized"))
    else if b.id.NoId? || !Truthy(b.password) then (users, Err(400, MissingFields))
    else if !b.password.Str? || b.id.Malformed? then (users, Err(500, InternalError))
    else
      match Find(users, b.id.id)
      case None => (users, Err(404, "User not found"))
      case Some(i) => (users[i := users[i].(password := hashed)], Ok(200, ResetDone))
  }

  method ResetPassword(db: Store, session: Option<Session>, b: ResetBody, hashed: string) returns (reply: Http<string>)
    requires db.Valid()
    modifies db
    ensures db.Valid()
    ensures (db.users, reply) == ResetOutcome(old(db.users), session, b, hashed)
    ensures db.groups == old(db.groups) && db.units == old(db.units) && db.requests == old(db.requests)
    ensures db.supplierInvoices == old(db.supplierInvoices) && db.sales == old(db.sales)
    ensures db.settings == old(db.settings) && db.nextId == old(db.nextId)
  {
    if !IsAdmin(session) {
      return Err(401, "Unauthorized");
    }
    if b.id.NoId? || !Truthy(b.password) {
      return Err(400, MissingFields);
    }
    if !b.password.Str? || b.id.Malformed? {
      return Err(500, InternalError);
    }
    var found := Find(db.users, b.id.id);
    if found.None? {
      return Err(404, "User not found");
    }
    Replace(db, found.value, db.users[found.value].(password := hashed));
    reply := Ok(200, ResetDone);
  }

  // -------------------------------------------------------------------- lemmas

  /** Every refusal of the three writes leaves the users as they were. */
  lemma RefusalsWriteNothing(users: seq<User>, session: Option<Session>, c: CreateBody, u: UpdateBody, r: ResetBody,
                             hashed: string, id: Id, now: Time)
    ensures CreateOutcome(users, session, c, hashed, id, now).1.Err? ==> CreateOutcome(users, session, c, hashed, id, now).0 == users
    ensures UpdateOutcome(users, session, u).1.Err? ==> UpdateOutcome(users, session, u).0 == users
    ensures ResetOutcome(users, session, r, hashed).1.Err? ==> ResetOutcome(users, session, r, hashed).0 == users
    ensures !IsAdmin(session) ==> CreateOutcome(users, session, c, hashed, id, now).1 == Err(403, Forbidden)
    ensures !IsAdmin(session) ==> UpdateOutcome(users, session, u).1 == Err(403, Forbidden)
    ensures !IsAdmin(session) ==> ResetOutcome(users, session, r, hashed).1 == Err(401, "Unauthorized")
  {
  }

  /** A falsy `name`, `email`, `password` or `role` is refused before anything is looked up. */
  lemma MissingFieldRefused(users: seq<User>, session: Option<Session>, c: CreateBody, hashed: string, id: Id, now: Time)
    requires IsAdmin(session)
    ensures CreateOutcome(users, session, c, hashed, id, now).1 == Err(400, MissingFields)
      <==> !(Truthy(c.name) && Truthy(c.email) && Truthy(c.password) && Truthy(c.role))
  {
  }

  /** A text that is truthy as a field stays non-empty once cast. */
  lemma TruthyText(v: Val)
    requires Truthy(v)
    ensures ValToString(v) != ""
  {
  }

  /**
   * A created user is appended under the fresh id with the cast name, email
   * and role, the hashed password and the active flag on; its email was in
   * no stored user; the reply is the same document without the password.
   * Every valid request succeeds.
   */
  lemma CreatedUser(users: seq<User>, session: Option<Session>, c: CreateBody, hashed: string, id: Id, now: Time)
    ensures var (after, reply) := CreateOutcome(users, session, c, hashed, id, now);
      reply.Ok? ==>
        IsAdmin(session) && reply.status == 201 && |after| == |users| + 1 && after[..|users|] == users
        && var u := after[|users|];
           u.id == id && u.name == ValToString(c.name) && u.email == ValToString(c.email)
           && u.email !in Emails(users) && u.password == hashed && u.role == ValToString(c.role)
           && ValidRole(u.role) && u.isActive && u.createdAt == now && reply.value == Public(u)
    ensures (IsAdmin(session) && Truthy(c.name) && Truthy(c.email) && c.password.Str? && c.password.s != ""
             && ValidRole(ValToString(c.role)) && ValToString(c.email) !in Emails(users) && hashed != "")
      ==> CreateOutcome(users, session, c, hashed, id, now).1.Ok?
  {
    if Truthy(c.name) {
      TruthyText(c.name);
    }
    if Truthy(c.email) {
      TruthyText(c.email);
    }
    var after := CreateOutcome(users, session, c, hashed, id, now).0;
    if CreateOutcome(users, session, c, hashed, id, now).1.Ok? {
      assert after == users + [after[|users|]];
      assert after[..|users|] == users;
    }
  }

  /** An email some user already has is refused, whatever the other fields are. */
  lemma DuplicateEmailRefused(users: seq<User>, session: Option<Session>, c: CreateBody, hashed: string, id: Id,
                              now: Time, k: nat)
    requires IsAdmin(session) && Truthy(c.name) && Truthy(c.email) && Truthy(c.password) && Truthy(c.role)
    requires k < |users| && users[k].email == ValToString(c.email)
    ensures CreateOutcome(users, session, c, hashed, id, now) == (users, Err(400, "User already exists"))
  {
    assert users[k].email in Emails(users);
  }

  /** A valid store stays valid after any create: the email index and the fresh id are respected. */
  lemma CreateKeepsEmailsUnique(users: seq<User>, session: Option<Session>, c: CreateBody, hashed: string, id: Id,
                                now: Time)
    requires Distinct(users, Email)
    ensures Distinct(CreateOutcome(users, session, c, hashed, id, now).0, Email)
  {
    var (after, reply) := CreateOutcome(users, session, c, hashed, id, now);
    if reply.Ok? {
      CreatedUser(users, session, c, hashed, id, now);
      var u := after[|users|];
      assert after == users + [u];
      assert forall i :: 0 <= i < |users| ==> users[i].email in Emails(users);
      DistinctAppend(users, Email, u);
    }
  }

  /** An ADMIN naming their own id with `isActive: false` is refused, even when nothing else would be. */
  lemma SelfDeactivationRefused(users: seq<User>, s: Session, role: Val)
    requires s.role == "ADMIN"
    ensures UpdateOutcome(users, Some(s), UpdateBody(UserRef(s.userId, true), role, Bool(false)))
      == (users, Err(400, "Cannot deactivate your own admin account"))
    ensures UpdateOutcome(users, Some(s), UpdateBody(UserRef(s.userId, true), role, Bool(true))).1.Err?
      ==> UpdateOutcome(users, Some(s), UpdateBody(UserRef(s.userId, true), role, Bool(true))).1 == Err(404, "User not found")
  {
  }

  /**
   * The guard compares texts: an ADMIN who spells their own stored id in
   * upper-case hex, with `isActive: false`, deactivates their own account.
   */
  lemma OtherSpellingDeactivatesSelf(users: seq<User>, s: Session, role: Val, i: nat)
    requires s.role == "ADMIN" && i < |users| && users[i].id == s.userId
    ensures var (after, reply) := UpdateOutcome(users, Some(s), UpdateBody(UserRef(s.userId, false), role, Bool(false)));
      reply.Ok? && exists k :: 0 <= k < |after| && after[k].id == s.userId && !after[k].isActive
  {
    var b := UpdateBody(UserRef(s.userId, false), role, Bool(false));
    var j := Find(users, s.userId).value;
    assert UpdateOutcome(users, Some(s), b).0[j] == Patched(users[j], b);
  }

  /**
   * A PUT that succeeds changes one user, the one with the id named: the role
   * only when the body's role is truthy, the flag only when it is a boolean,
   * and never the name, email, password or creation time.
   */
  lemma SelectiveUpdate(users: seq<User>, session: Option<Session>, b: UpdateBody)
    ensures var (after, reply) := UpdateOutcome(users, session, b);
      reply.Ok? ==>
        b.id.UserRef? && |after| == |users|
        && (exists i :: 0 <= i < |users| && users[i].id == b.id.id
              && (forall k :: 0 <= k < |users| && k != i ==> after[k] == users[k])
              && after[i].(role := users[i].role, isActive := users[i].isActive) == users[i]
              && (after[i].role != users[i].role ==> Truthy(b.role) && after[i].role == ValToString(b.role))
              && (!Truthy(b.role) ==> after[i].role == users[i].role)
              && after[i].isActive == (if b.isActive.Bool? then b.isActive.b else users[i].isActive)
              && reply.value == Public(after[i]))
  {
    var (after, reply) := UpdateOutcome(users, session, b);
    if reply.Ok? {
      var i := Find(users, b.id.id).value;
      assert users[i].id == b.id.id;
    }
  }

  /** An id no user has is answered 404 and writes nothing. */
  lemma UnknownIdNotFound(users: seq<User>, s: Session, b: UpdateBody, r: ResetBody, hashed: string)
    requires s.role == "ADMIN" && b.id.UserRef? && !(SameText(b.id, s) && b.isActive == Bool(false))
    requires r.id == b.id && r.password.Str? && r.password.s != ""
    requires forall i :: 0 <= i < |users| ==> users[i].id != b.id.id
    ensures UpdateOutcome(users, Some(s), b) == (users, Err(404, "User not found"))
    ensures ResetOutcome(users, Some(s), r, hashed) == (users, Err(404, "User not found"))
  {
  }

  /**
   * A reset that succeeds replaces the password of the user named, with the
   * hash of the new one, and changes nothing else.
   */
  lemma ResetChangesPasswordOnly(users: seq<User>, session: Option<Session>, b: ResetBody, hashed: string)
    ensures var (after, reply) := ResetOutcome(users, session, b, hashed);
      reply.Ok? ==>
        reply == Ok(200, ResetDone) && b.id.UserRef? && b.password.Str? && b.password.s != "" && |after| == |users|
        && (exists i :: 0 <= i < |users| && users[i].id == b.id.id
              && after[i] == users[i].(password := hashed)
              && (forall k :: 0 <= k < |users| && k != i ==> after[k] == users[k]))
  {
    var (after, reply) := ResetOutcome(users, session, b, hashed);
    if reply.Ok? {
      var i := Find(users, b.id.id).value;
      assert users[i].id == b.id.id;
    }
  }

  /** Neither a PUT nor a reset changes what GET lists for the other users, nor any email. */
  lemma WritesKeepEmails(users: seq<User>, session: Option<Session>, b: UpdateBody, r: ResetBody, hashed: string)
    ensures var after := UpdateOutcome(users, session, b).0;
      |after| == |users| && forall k :: 0 <= k < |users| ==> after[k].email == users[k].email && after[k].id == users[k].id
    ensures var after := ResetOutcome(users, session, r, hashed).0;
      |after| == |users| && forall k :: 0 <= k < |users| ==> after[k].email == users[k].email && after[k].id == users[k].id
  {
  }

  /** The listing has one entry per stored user, and a user is listed exactly when stored. */
  lemma ListedUsers(users: seq<User>, s: Session, u: User)
    requires s.role == "ADMIN"
    ensures |List(users, Some(s)).value| == |users|
    ensures Public(u) in List(users, Some(s)).value <==> exists i :: 0 <= i < |users| && Public(users[i]) == Public(u)
  {
    SortedMembership(Publics(users), NewestFirst, Public(u));
  }
}
