/**
 * `dbConnect`: one cached connection shared by every route, a failed
 * connect that is retried on the next call, and the first ADMIN account
 * seeded from the environment once a connection is made.
 */
module Connection {
  import opened Base
  import opened Models
  import opened Db
  import UsersApi

  /** A handle to an open connection. */
  type Conn = nat

  /** The seed variables as the environment carries them (`None` when unset). */
  datatype SeedEnv = SeedEnv(email: Option<string>, password: Option<string>, name: Option<string>)

  /** A variable counts only when it is set to a non-empty value. */
  predicate IsSet(v: Option<string>) {
    v.Some? && v.value != ""
  }

  /** `process.env.SEED_ADMIN_NAME || 'Admin'` */
  function SeedName(env: SeedEnv): (n: string)
    ensures n != ""
    ensures IsSet(env.name) ==> n == env.name.value
  {
    if IsSet(env.name) then env.name.value else "Admin"
  }

  /** `User.exists({ role: 'ADMIN' })` */
  predicate AdminExists(users: seq<User>) {
    exists i :: 0 <= i < |users| && users[i].role == "ADMIN"
  }

  /**
   * The seed step as a function of the stored users: the new users, and
   * whether it completed. `hashed` is what `bcrypt.hash` makes of the
   * password. It writes only when both credentials are set and no ADMIN
   * exists; an email already taken violates the unique index and throws.
   */
  function SeedOutcome(users: seq<User>, env: SeedEnv, hashed: string, id: Id, now: Time): (r: (seq<User>, bool))
    ensures !(IsSet(env.email) && IsSet(env.password)) || AdminExists(users) ==> r == (users, true)
    ensures r.0 == users || (|r.0| == |users| + 1 && r.0[..|users|] == users)
    ensures r.0 != users ==>
      r.1 && IsSet(env.email) && IsSet(env.password) && !AdminExists(users) && |r.0| == |users| + 1
      && r.0[|users|].id == id && r.0[|users|].role == "ADMIN" && r.0[|users|].isActive
      && r.0[|users|].email == env.email.value && r.0[|users|].password == hashed
      && r.0[|users|].name == SeedName(env) && env.email.value !in UsersApi.Emails(users)
    ensures !r.1 ==> r.0 == users
  {
    if !(IsSet(env.email) && IsSet(env.password)) || AdminExists(users) then (users, true)
    else if env.email.value in UsersApi.Emails(users) then (users, false)
    else
      match NewUser(id, UserInput(SeedName(env), env.email.value, hashed, Some("ADMIN"), Some(true)), now)
      case None => (users, false)
      case Some(u) => (users + [u], true)
  }

  /**
   * The module-level cache. `promise` is the connect attempt in flight or
   * settled, written as the value it settles to: a connection, or `None`
   * for a rejection.
   */
  class Cache {
    var conn: Option<Conn>
    var promise: Option<Option<Conn>>

    constructor ()
      ensures conn.None? && promise.None?
    {
      conn, promise := None, None;
    }

    /**
     * One call. `attempt` is what `mongoose.connect` would settle to if this
     * call starts one; the result is the connection, or `None` when the
     * call throws.
     */
    method Connect(db: Store, env: SeedEnv, attempt: Option<Conn>, hashed: string, now: Time) returns (r: Option<Conn>)
      requires db.Valid()
      modifies this, db
      ensures db.Valid()
      ensures old(conn).Some? ==> r == old(conn) && conn == old(conn) && promise == old(promise)
                                  && db.users == old(db.users) && db.nextId == old(db.nextId)
      ensures var settled := if old(promise).Some? then old(promise).value else attempt;
        old(conn).None? && settled.None? ==>
          r.None? && conn.None? && promise.None? && db.users == old(db.users) && db.nextId == old(db.nextId)
      ensures var settled := if old(promise).Some? then old(promise).value else attempt;
        old(conn).None? && settled.Some? ==>
          conn == settled && promise == Some(settled)
          && (db.users, r.Some?) == SeedOutcome(old(db.users), env, hashed, old(db.nextId), now)
          && (r.Some? ==> r == settled)
          && db.nextId == old(db.nextId) + |db.users| - |old(db.users)|
      ensures db.groups == old(db.groups) && db.units == old(db.units) && db.requests == old(db.requests)
      ensures db.supplierInvoices == old(db.supplierInvoices) && db.sales == old(db.sales)
      ensures db.settings == old(db.settings)
    {
      if conn.Some? {
        return conn;
      }
      if promise.None? {
        promise := Some(attempt);
      }
      if promise.value.None? {
        promise := None;
        return None;
      }
      conn := promise.value;
      var ok := Seed(db, env, hashed, now);
      r := if ok then conn else None;
    }
  }

  /** The seed step on the store. */
  method Seed(db: Store, env: SeedEnv, hashed: string, now: Time) returns (ok: bool)
    requires db.Valid()
    modifies db
    ensures db.Valid()
    ensures (db.users, ok) == SeedOutcome(old(db.users), env, hashed, old(db.nextId), now)
    ensures db.nextId == old(db.nextId) + |db.users| - |old(db.users)|
    ensures db.groups == old(db.groups) && db.units == old(db.units) && db.requests == old(db.requests)
    ensures db.supplierInvoices == old(db.supplierInvoices) && db.sales == old(db.sales)
    ensures db.settings == old(db.settings)
  {
    if !(IsSet(env.email) && IsSet(env.password)) || AdminExists(db.users) {
      return true;
    }
    if env.email.value in UsersApi.Emails(db.users) {
      return false;
    }
    var made := NewUser(db.nextId, UserInput(SeedName(env), env.email.value, hashed, Some("ADMIN"), Some(true)), now);
    if made.None? {
      return false;
    }
    UsersApi.Insert(db, made.value);
    ok := true;
  }

  // -------------------------------------------------------------------- lemmas

  /** Without both credentials, or with any ADMIN already stored, the seed writes nothing and succeeds. */
  lemma NoSeedUnlessNeeded(users: seq<User>, env: SeedEnv, hashed: string, id: Id, now: Time)
    ensures !IsSet(env.email) ==> SeedOutcome(users, env, hashed, id, now) == (users, true)
    ensures !IsSet(env.password) ==> SeedOutcome(users, env, hashed, id, now) == (users, true)
    ensures AdminExists(users) ==> SeedOutcome(users, env, hashed, id, now) == (users, true)
  {
  }

  /**
   * A seeded user is the only one added: an active ADMIN with the seed
   * email, the hashed password and the configured name or 'Admin'; after
   * it, an ADMIN exists, so a second seed writes nothing.
   */
  lemma SeededAdmin(users: seq<User>, env: SeedEnv, hashed: string, id: Id, now: Time)
    ensures var after := SeedOutcome(users, env, hashed, id, now).0;
      after != users ==>
        IsSet(env.email) && IsSet(env.password) && !AdminExists(users)
        && |after| == |users| + 1 && after[..|users|] == users
        && after[|users|] == User(id, SeedName(env), env.email.value, hashed, "ADMIN", true, now)
    ensures var after := SeedOutcome(users, env, hashed, id, now).0;
      AdminExists(after) ==> SeedOutcome(after, env, hashed, id + 1, now) == (after, true)
    ensures IsSet(env.email) && IsSet(env.password) && !AdminExists(users) && hashed != ""
            && env.email.value !in UsersApi.Emails(users)
      ==> AdminExists(SeedOutcome(users, env, hashed, id, now).0)
  {
    var after := SeedOutcome(users, env, hashed, id, now).0;
    if after != users {
      assert after == users + [after[|users|]];
      assert after[..|users|] == users;
    }
    if IsSet(env.email) && IsSet(env.password) && !AdminExists(users) && hashed != ""
       && env.email.value !in UsersApi.Emails(users) {
      assert after[|users|].role == "ADMIN";
    }
  }

  /**
   * Two calls in a row: once the first has connected, the second returns
   * that connection without connecting again or seeding; after a failed
   * first call, the second starts a fresh attempt.
   */
  method TwoCalls(cache: Cache, db: Store, env: SeedEnv, first: Option<Conn>, second: Option<Conn>, hashed: string,
                  now: Time) returns (a: Option<Conn>, b: Option<Conn>)
    requires db.Valid() && cache.conn.None? && cache.promise.None?
    modifies cache, db
    ensures db.Valid()
    ensures first.None? ==> a.None? && (b.Some? ==> b == second)
    ensures first.Some? ==> cache.conn == first && (a.Some? ==> a == first) && b == first
  {
    a := cache.Connect(db, env, first, hashed, now);
    b := cache.Connect(db, env, second, hashed, now);
  }
}
