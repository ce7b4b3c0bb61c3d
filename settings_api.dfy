/**
 * `/api/settings`: any signed-in user reads the settings singleton, created
 * with every default on first read (GET); an ADMIN overwrites whole
 * sections of it (PUT), and FIFO mode can never be switched off.
 */
module SettingsApi {
  import opened Base
  import opened Models
  import opened Db

  /**
   * A PUT body: the sections it carries, each as a whole section object;
   * `None` for a section the body leaves out.
   */
  datatype Patch = Patch(business: Option<Business>, workingHours: Option<WorkingHours>,
                         inventory: Option<InventoryPolicy>, procurement: Option<ProcurementPolicy>,
                         alerts: Option<Alerts>, permissions: Option<Permissions>, ui: Option<Ui>,
                         security: Option<Security>)

  /** `if (body.inventory && body.inventory.fifoMode === false) body.inventory.fifoMode = true` */
  function ForceFifo(p: Patch): (q: Patch)
    ensures q.inventory.Some? <==> p.inventory.Some?
    ensures q.inventory.Some? ==> q.inventory.value == p.inventory.value.(fifoMode := true)
    ensures q.(inventory := p.inventory) == p
  {
    if p.inventory.Some? && !p.inventory.value.fifoMode then p.(inventory := Some(p.inventory.value.(fifoMode := true)))
    else p
  }

  function Pick<T>(section: Option<T>, stored: T): T {
    if section.Some? then section.value else stored
  }

  /** `$set: body`: each section the body carries replaces the stored one. */
  function Merge(s: Settings, p: Patch): (r: Settings)
    ensures r.business == (if p.business.Some? then p.business.value else s.business)
    ensures r.workingHours == (if p.workingHours.Some? then p.workingHours.value else s.workingHours)
    ensures r.inventory == (if p.inventory.Some? then p.inventory.value else s.inventory)
    ensures r.procurement == (if p.procurement.Some? then p.procurement.value else s.procurement)
    ensures r.alerts == (if p.alerts.Some? then p.alerts.value else s.alerts)
    ensures r.permissions == (if p.permissions.Some? then p.permissions.value else s.permissions)
    ensures r.ui == (if p.ui.Some? then p.ui.value else s.ui)
    ensures r.security == (if p.security.Some? then p.security.value else s.security)
  {
    Settings(Pick(p.business, s.business), Pick(p.workingHours, s.workingHours), Pick(p.inventory, s.inventory),
             Pick(p.procurement, s.procurement), Pick(p.alerts, s.alerts), Pick(p.permissions, s.permissions),
             Pick(p.ui, s.ui), Pick(p.security, s.security))
  }

  /** `findOne()`, or the defaults the upsert and `create({})` start from when there is none. */
  function Current(stored: Option<Settings>): Settings {
    if stored.Some? then stored.value else DefaultSettings()
  }

  /** GET as a function of the stored singleton: the new singleton and the reply. */
  function GetOutcome(stored: Option<Settings>, session: Option<Session>): (r: (Option<Settings>, Http<Settings>))
    ensures session.None? ==> r == (stored, Err(401, "Unauthorized"))
    ensures session.Some? ==> r.0.Some? && r.1 == Ok(200, r.0.value)
    ensures stored.Some? ==> r.0 == stored
    ensures session.Some? && stored.None? ==> r.0 == Some(DefaultSettings())
  {
    if session.None? then (stored, Err(401, "Unauthorized"))
    else (Some(Current(stored)), Ok(200, Current(stored)))
  }

  /** PUT as a function of the stored singleton: the new singleton and the reply. */
  function PutOutcome(stored: Option<Settings>, session: Option<Session>, p: Patch): (r: (Option<Settings>, Http<Settings>))
    ensures r.1.Err? ==> r.0 == stored && r.1.status in {401, 403}
    ensures r.1.Ok? <==> session.Some? && session.value.role == "ADMIN"
    ensures r.1.Ok? ==> r.1.status == 200 && r.0 == Some(r.1.value)
    ensures r.1.Ok? ==> r.1.value.inventory.fifoMode == (p.inventory.Some? || Current(stored).inventory.fifoMode)
  {
    if session.None? then (stored, Err(401, "Unauthorized"))
    else if session.value.role != "ADMIN" then (stored, Err(403, "Forbidden"))
    else
      var updated := Merge(Current(stored), ForceFifo(p));
      (Some(updated), Ok(200, updated))
  }

  method Get(db: Store, session: Option<Session>) returns (reply: Http<Settings>)
    requires db.Valid()
    modifies db
    ensures db.Valid()
    ensures (db.settings, reply) == GetOutcome(old(db.settings), session)
    ensures db.groups == old(db.groups) && db.units == old(db.units) && db.requests == old(db.requests)
    ensures db.supplierInvoices == old(db.supplierInvoices) && db.sales == old(db.sales)
    ensures db.users == old(db.users) && db.nextId == old(db.nextId)
  {
    if session.None? {
      return Err(401, "Unauthorized");
    }
    if db.settings.None? {
      db.settings := Some(DefaultSettings());
    }
    reply := Ok(200, db.settings.value);
  }

  method Put(db: Store, session: Option<Session>, body: Patch) returns (reply: Http<Settings>)
    requires db.Valid()
    modifies db
    ensures db.Valid()
    ensures (db.settings, reply) == PutOutcome(old(db.settings), session, body)
    ensures db.groups == old(db.groups) && db.units == old(db.units) && db.requests == old(db.requests)
    ensures db.supplierInvoices == old(db.supplierInvoices) && db.sales == old(db.sales)
    ensures db.users == old(db.users) && db.nextId == old(db.nextId)
  {
    if session.None? {
      return Err(401, "Unauthorized");
    }
    if session.value.role != "ADMIN" {
      return Err(403, "Forbidden");
    }
    var patch := body;
    if patch.inventory.Some? && !patch.inventory.value.fifoMode {
      patch := patch.(inventory := Some(patch.inventory.value.(fifoMode := true)));
    }
    var base := if db.settings.Some? then db.settings.value else DefaultSettings();
    var updated := Merge(base, patch);
    db.settings := Some(updated);
    reply := Ok(200, updated);
  }

  // -------------------------------------------------------------------- lemmas

  /** Without a session both verbs answer 401; a non-ADMIN PUT answers 403; none of them writes. */
  lemma RefusalsWriteNothing(stored: Option<Settings>, session: Option<Session>, p: Patch)
    ensures session.None? ==> GetOutcome(stored, session) == (stored, Err(401, "Unauthorized"))
    ensures session.None? ==> PutOutcome(stored, session, p) == (stored, Err(401, "Unauthorized"))
    ensures session.Some? && session.value.role != "ADMIN" ==> PutOutcome(stored, session, p) == (stored, Err(403, "Forbidden"))
    ensures PutOutcome(stored, session, p).1.Err? ==> PutOutcome(stored, session, p).0 == stored
  {
  }

  /**
   * A first GET stores the defaults, and a second GET finds them and writes
   * nothing more: both return the same document.
   */
  lemma GetCreatesOnce(s: Session)
    ensures GetOutcome(None, Some(s)).0 == Some(DefaultSettings())
    ensures var after := GetOutcome(None, Some(s)).0;
      GetOutcome(after, Some(s)).0 == after && GetOutcome(after, Some(s)).1 == GetOutcome(None, Some(s)).1
  {
  }

  /** Whatever a PUT carries, the stored settings keep FIFO mode on. */
  lemma FifoStaysOn(stored: Option<Settings>, session: Option<Session>, p: Patch)
    requires stored.Some? ==> stored.value.inventory.fifoMode
    ensures var after := PutOutcome(stored, session, p).0;
      after.Some? ==> after.value.inventory.fifoMode
  {
  }

  /**
   * An ADMIN PUT replaces exactly the sections the body carries, with
   * `fifoMode` forced on, and keeps every other section as stored; it
   * succeeds without a stored document too, over the defaults.
   */
  lemma SectionsMerged(stored: Option<Settings>, s: Session, p: Patch)
    requires s.role == "ADMIN"
    ensures var (after, reply) := PutOutcome(stored, Some(s), p);
      var base := if stored.Some? then stored.value else DefaultSettings();
      reply.Ok? && reply.status == 200 && after == Some(reply.value)
      && reply.value.business == (if p.business.Some? then p.business.value else base.business)
      && reply.value.workingHours == (if p.workingHours.Some? then p.workingHours.value else base.workingHours)
      && reply.value.inventory == (if p.inventory.Some? then p.inventory.value.(fifoMode := true) else base.inventory)
      && reply.value.procurement == (if p.procurement.Some? then p.procurement.value else base.procurement)
      && reply.value.alerts == (if p.alerts.Some? then p.alerts.value else base.alerts)
      && reply.value.permissions == (if p.permissions.Some? then p.permissions.value else base.permissions)
      && reply.value.ui == (if p.ui.Some? then p.ui.value else base.ui)
      && reply.value.security == (if p.security.Some? then p.security.value else base.security)
  {
  }

  /** An empty body changes nothing: the stored document comes back as it was. */
  lemma EmptyPatchKeeps(st: Settings, s: Session)
    requires s.role == "ADMIN"
    ensures PutOutcome(Some(st), Some(s), Patch(None, None, None, None, None, None, None, None)) == (Some(st), Ok(200, st))
  {
  }

  /** Putting the same body twice stores what putting it once does. */
  lemma PutIdempotent(stored: Option<Settings>, s: Session, p: Patch)
    requires s.role == "ADMIN"
    ensures var once := PutOutcome(stored, Some(s), p).0;
      PutOutcome(once, Some(s), p).0 == once
  {
  }
}
