/**
 Tenant api keys: provisional keys and their confirmation, minting, revocation and recovery. Each
 operation runs under the tenant's row lock, so it is one step from committed state to committed
 state. `clock` is the database's time at that step and never runs back; `now` is the time the
 transaction reads, which on PostgreSQL is when it began, before it waited for the lock, and on SQL
 Server is the time of the statement.
 */
module Tenants {

  type Id = string

  datatype Expiry = Never | At(time: nat)

  datatype Key = Key(tenant: Id, provisional: bool, disabled: bool, expires: Expiry)

  datatype Tenant = Tenant(name: string, org: Id, creator: string, suspended: bool)

  /** `issued` are the ids of all keys ever inserted: a key id is generated once. */
  datatype Db = Db(tenants: map<Id, Tenant>, keys: map<Id, Key>, issued: set<Id>, clock: nat)

  const PROVISIONAL_KEY_TTL := 900
  const MAX_LIVE_TENANT_KEYS := 25

  /** The liveness test authentication and every count use. */
  predicate Unexpired(key: Key, now: nat) {
    !key.disabled && (key.expires.Never? || key.expires.time > now)
  }

  /** The key authenticates. */
  predicate Live(db: Db, k: Id) {
    k in db.keys && Unexpired(db.keys[k], db.clock)
  }

  /** The keys of a tenant that a transaction reading the time `now` counts as live. */
  function LiveAt(db: Db, id: Id, now: nat): set<Id> {
    set k | k in db.keys && db.keys[k].tenant == id && Unexpired(db.keys[k], now)
  }

  function LiveKeys(db: Db, id: Id): set<Id> {
    LiveAt(db, id, db.clock)
  }

  function ConfirmedAt(db: Db, id: Id, now: nat): set<Id> {
    set k | k in db.keys && db.keys[k].tenant == id && Unexpired(db.keys[k], now) && !db.keys[k].provisional
  }

  datatype Reply =
    | NotFound
    | Appeared
    | Secret(keyId: Id)
    | NoSecret
    | Confirmed
    | AlreadyConfirmed
    | NoProvisionalKey
    | KeyLimit
    | KeyNotFound
    | AlreadyRevoked
    | Revoked
    | LastKey
    | RefusedSuspended
    | RefusedLiveKeys(live: nat)
    | Done

  function InsertKey(db: Db, k: Id, key: Key): Db {
    db.(keys := db.keys[k := key], issued := db.issued + {k})
  }

  function InsertProvisional(db: Db, id: Id, k: Id, now: nat): Db {
    InsertKey(db, k, Key(id, true, false, At(now + PROVISIONAL_KEY_TTL)))
  }

  function DisableProvisional(db: Db, id: Id): Db {
    db.(keys := map k | k in db.keys ::
                  if db.keys[k].tenant == id && db.keys[k].provisional then db.keys[k].(disabled := true)
                  else db.keys[k])
  }

  // ---- The transactions ------------------------------------------------------------------------

  /** The insert transaction of a create. A row that is there sends the create to a second pass. */
  function Create(db: Db, id: Id, t: Tenant, k: Id, now: nat): (Db, Reply) {
    if id in db.tenants then (db, Appeared)
    else (InsertProvisional(db.(tenants := db.tenants[id := t.(suspended := false)]), id, k, now), Secret(k))
  }

  /** The locked part of a replayed create: a fresh provisional key replaces any other, unless some
      confirmed key is live. */
  function Replay(db: Db, id: Id, k: Id, now: nat): (Db, Reply) {
    if id !in db.tenants then (db, NotFound)
    else if ConfirmedAt(db, id, now) != {} then (db, NoSecret)
    else (InsertProvisional(DisableProvisional(db, id), id, k, now), Secret(k))
  }

  function Confirm(db: Db, id: Id, k: Id, creator: string, now: nat): (Db, Reply) {
    if id !in db.tenants || db.tenants[id].creator == "" || db.tenants[id].creator != creator then (db, NotFound)
    else if k !in LiveAt(db, id, now) then (db, NoProvisionalKey)
    else if !db.keys[k].provisional then (db, AlreadyConfirmed)
    else (db.(keys := db.keys[k := db.keys[k].(provisional := false, expires := Never)]), Confirmed)
  }

  function Mint(db: Db, id: Id, k: Id, expires: Expiry, now: nat): (Db, Reply) {
    if id !in db.tenants then (db, NotFound)
    else if |LiveAt(db, id, now)| >= MAX_LIVE_TENANT_KEYS then (db, KeyLimit)
    else (InsertKey(db, k, Key(id, false, false, expires)), Secret(k))
  }

  function Revoke(db: Db, id: Id, k: Id, force: bool, now: nat): (Db, Reply) {
    if id !in db.tenants then (db, NotFound)
    else if k !in db.keys || db.keys[k].tenant != id then (db, KeyNotFound)
    else if db.keys[k].disabled then (db, AlreadyRevoked)
    else if !force && LiveAt(db, id, now) - {k} == {} then (db, LastKey)
    else (db.(keys := db.keys[k := db.keys[k].(disabled := true)]), Revoked)
  }

  function Recover(db: Db, id: Id, k: Id, now: nat): (Db, Reply) {
    if id !in db.tenants then (db, NotFound)
    else if db.tenants[id].suspended then (db, RefusedSuspended)
    else if LiveAt(db, id, now) != {} then (db, RefusedLiveKeys(|LiveAt(db, id, now)|))
    else (InsertProvisional(db, id, k, now), Secret(k))
  }

  function Suspend(db: Db, id: Id, creator: string): (Db, Reply) {
    if id !in db.tenants || db.tenants[id].creator == "" || db.tenants[id].creator != creator then (db, NotFound)
    else (db.(tenants := db.tenants[id := db.tenants[id].(suspended := true)]), Done)
  }

  function SetSuspended(db: Db, id: Id, suspended: bool): (Db, Reply) {
    if id !in db.tenants then (db, NotFound)
    else (db.(tenants := db.tenants[id := db.tenants[id].(suspended := suspended)]), Done)
  }

  /** The drop removes the tenant and every one of its keys. */
  function Drop(db: Db, id: Id): (Db, Reply) {
    if id !in db.tenants then (db, NotFound)
    else (db.(tenants := db.tenants - {id},
              keys := map k | k in db.keys && db.keys[k].tenant != id :: db.keys[k]), Done)
  }

  /** A minted key counts as confirmed until it expires: a replayed create then hands out no secret and
      leaves it alone. */
  lemma {:induction false} MintedBlocksReplay(db: Db, id: Id, k: Id, expires: Expiry, now: nat, t: nat, l: Id)
    requires Mint(db, id, k, expires, now).1 == Secret(k) && (expires.Never? || t < expires.time)
    ensures var db' := Mint(db, id, k, expires, now).0;
            k in ConfirmedAt(db', id, t) && Replay(db', id, l, t) == (db', NoSecret)
  {
    assert k in ConfirmedAt(Mint(db, id, k, expires, now).0, id, t);
  }

  /** A create that finds no row inserts the tenant as it was asked for, not suspended, with one key that
      is provisional and lapses after the handshake's time; nothing else changes. */
  lemma {:induction false} CreateInserts(db: Db, id: Id, t: Tenant, k: Id, now: nat)
    requires k !in db.keys
    ensures var (db', r) := Create(db, id, t, k, now);
            && (r == Secret(k) <==> id !in db.tenants) && (r != Secret(k) ==> db' == db)
            && (r == Secret(k) ==>
                  && db'.tenants == db.tenants[id := Tenant(t.name, t.org, t.creator, false)]
                  && db'.keys == db.keys[k := Key(id, true, false, At(now + PROVISIONAL_KEY_TTL))]
                  && db'.issued == db.issued + {k} && db'.clock == db.clock)
  {
  }

  /** Only the creator suspends a tenant by name; an operator may set the flag either way. The flag of
      that tenant is all that changes. */
  lemma {:induction false} SuspensionChangesTheFlag(db: Db, id: Id, creator: string, suspended: bool)
    ensures var (db', r) := Suspend(db, id, creator);
            && (r == Done <==> id in db.tenants && creator != "" && db.tenants[id].creator == creator)
            && db' == if r == Done then SetSuspended(db, id, true).0 else db
    ensures var (db', r) := SetSuspended(db, id, suspended);
            && (r == Done <==> id in db.tenants)
            && db'.keys == db.keys && db'.issued == db.issued && db'.clock == db.clock && db'.tenants.Keys == db.tenants.Keys
            && (forall i :: i in db.tenants && i != id ==> db'.tenants[i] == db.tenants[i])
            && (id in db.tenants ==>
                  db'.tenants[id] == Tenant(db.tenants[id].name, db.tenants[id].org, db.tenants[id].creator, suspended))
  {
  }

  /** A drop takes the tenant and exactly its keys. */
  lemma {:induction false} DropTakesItsKeys(db: Db, id: Id, k: Id)
    ensures var (db', r) := Drop(db, id);
            && (r == Done <==> id in db.tenants) && (r != Done ==> db' == db)
            && id !in db'.tenants
            && (forall i :: i in db.tenants && i != id ==> i in db'.tenants && db'.tenants[i] == db.tenants[i])
            && (r == Done ==> (k in db'.keys <==> k in db.keys && db.keys[k].tenant != id))
            && (k in db'.keys ==> k in db.keys && db'.keys[k] == db.keys[k])
  {
  }

  // ---- The store, in place ---------------------------------------------------------------------

  /** What may change besides the key `k` of the tenant `id`: nothing. */
  predicate OnlyKey(db: Db, db': Db, id: Id, k: Id) {
    && db'.tenants == db.tenants && db'.clock == db.clock
    && (forall l :: l in db.keys && l != k ==> l in db'.keys && db'.keys[l] == db.keys[l])
    && (forall l :: l in db'.keys ==> l in db.keys || l == k)
    && (k in db'.keys ==> db'.keys[k].tenant == id)
  }

  /** The key authenticates from now on and does not lapse. */
  predicate Permanent(db: Db, k: Id) {
    Live(db, k) && !db.keys[k].provisional && db.keys[k].expires.Never?
  }

  class TenantStore {
    var db: Db

    constructor ()
      ensures db.tenants == map[] && db.keys == map[] && forall id :: LiveKeys(db, id) == {}
    {
      db := EMPTY;
    }

    /** A secret is handed out exactly when the transaction sees no live confirmed key. The key is
        then the only one of the tenant that can authenticate, and no other tenant is touched. */
    method ReplayCreate(id: Id, k: Id, now: nat) returns (r: Reply)
      requires k !in db.keys && now <= db.clock
      modifies this
      ensures (db, r) == Replay(old(db), id, k, now)
      ensures r == Secret(k) <==> id in old(db).tenants && ConfirmedAt(old(db), id, now) == {}
      ensures r == Secret(k) ==>
                && db.keys[k].expires == At(now + PROVISIONAL_KEY_TTL)
                && LiveAt(db, id, now) == {k} && db.keys[k].provisional
                && (forall j :: j != id ==> LiveKeys(db, j) == LiveKeys(old(db), j))
      ensures r != Secret(k) ==> db == old(db)
      ensures r == NotFound <==> id !in old(db).tenants
    {
      if id !in db.tenants {
        return NotFound;
      }
      if ConfirmedAt(db, id, now) != {} {
        return NoSecret;
      }
      ghost var before := db;
      db := DisableProvisional(db, id);
      db := InsertProvisional(db, id, k, now);
      assert forall l :: l in LiveAt(db, id, now) && l != k ==> l in ConfirmedAt(before, id, now);
      assert k in LiveAt(db, id, now);
      return Secret(k);
    }

    /** Only the creator confirms, and only a provisional key of the tenant that is live as the
        transaction sees it; that key is permanent from then on. A repeat is not an error. */
    method ConfirmProvisionedTenant(id: Id, k: Id, creator: string, now: nat) returns (r: Reply)
      requires now <= db.clock
      modifies this
      ensures (db, r) == Confirm(old(db), id, k, creator, now)
      ensures r == NotFound <==> id !in old(db).tenants || creator == "" || old(db).tenants[id].creator != creator
      ensures r != NotFound ==>
                && (r == Confirmed <==> k in LiveAt(old(db), id, now) && old(db).keys[k].provisional)
                && (r == AlreadyConfirmed <==> k in LiveAt(old(db), id, now) && !old(db).keys[k].provisional)
      ensures r == Confirmed ==>
                Permanent(db, k) && LiveKeys(db, id) == LiveKeys(old(db), id) + {k} && OnlyKey(old(db), db, id, k)
      ensures r != Confirmed ==> db == old(db)
    {
      if id !in db.tenants {
        return NotFound;
      }
      var createdBy := db.tenants[id].creator;
      if createdBy == "" || createdBy != creator {
        return NotFound;
      }
      if k in LiveAt(db, id, now) && db.keys[k].provisional {
        db := db.(keys := db.keys[k := db.keys[k].(provisional := false, expires := Never)]);
        return Confirmed;
      }
      if k in LiveAt(db, id, now) {
        return AlreadyConfirmed;
      }
      return NoProvisionalKey;
    }

    /** A key is added exactly when the tenant exists and the transaction sees fewer than 25 live keys,
        so the tenant has at most 25 afterwards. The key is confirmed: until it expires a replayed create
        hands out no secret and leaves it alone. */
    method MintKey(id: Id, k: Id, expires: Expiry, now: nat) returns (r: Reply)
      requires k !in db.keys && now <= db.clock
      modifies this
      ensures (db, r) == Mint(old(db), id, k, expires, now)
      ensures r == Secret(k) <==> id in old(db).tenants && |LiveAt(old(db), id, now)| < MAX_LIVE_TENANT_KEYS
      ensures r == Secret(k) ==> k in db.keys && !db.keys[k].provisional && db.keys[k].expires == expires
      ensures r == Secret(k) ==> forall t: nat, l: Id :: expires.Never? || t < expires.time ==>
                Replay(db, id, l, t) == (db, NoSecret)
      ensures r == Secret(k) ==>
                && LiveKeys(db, id) - {k} == LiveKeys(old(db), id) && |LiveKeys(db, id)| <= MAX_LIVE_TENANT_KEYS
                && (k in LiveKeys(db, id) <==> expires.Never? || expires.time > db.clock)
                && OnlyKey(old(db), db, id, k)
      ensures r != Secret(k) ==> db == old(db) && (r == NotFound <==> id !in db.tenants)
    {
      if id !in db.tenants {
        return NotFound;
      }
      var live := |LiveAt(db, id, now)|;
      if live >= MAX_LIVE_TENANT_KEYS {
        return KeyLimit;
      }
      ghost var before := db;
      db := InsertKey(db, k, Key(id, false, false, expires));
      LaterIsFewer(before, id, now);
      SubsetSize(LiveKeys(db, id), LiveKeys(before, id) + {k});
      forall t: nat, l: Id | expires.Never? || t < expires.time
        ensures Replay(db, id, l, t) == (db, NoSecret)
      {
        MintedBlocksReplay(before, id, k, expires, now, t, l);
      }
      return Secret(k);
    }

    /** A key of the tenant is disabled unless it already is, or it is the last one the transaction sees
        live and force was not asked; no other key changes. */
    method RevokeKey(id: Id, k: Id, force: bool, now: nat) returns (r: Reply)
      requires now <= db.clock
      modifies this
      ensures (db, r) == Revoke(old(db), id, k, force, now)
      ensures r == Revoked <==>
                && id in old(db).tenants && k in old(db).keys && old(db).keys[k].tenant == id && !old(db).keys[k].disabled
                && (force || exists l :: l != k && l in LiveAt(old(db), id, now))
      ensures r == Revoked ==> LiveKeys(db, id) == LiveKeys(old(db), id) - {k} && OnlyKey(old(db), db, id, k)
      ensures r != Revoked ==> db == old(db)
      ensures r == AlreadyRevoked ==> k in db.keys && !Live(db, k)
    {
      if id !in db.tenants {
        return NotFound;
      }
      if k !in db.keys || db.keys[k].tenant != id {
        return KeyNotFound;
      }
      if db.keys[k].disabled {
        return AlreadyRevoked;
      }
      if !force {
        var others := LiveAt(db, id, now) - {k};
        if others == {} {
          assert forall l :: l != k ==> l !in LiveAt(db, id, now) by {
            assert forall l :: l != k && l in LiveAt(db, id, now) ==> l in others;
          }
          return LastKey;
        }
        assert exists l :: l in others;
      }
      db := db.(keys := db.keys[k := db.keys[k].(disabled := true)]);
      return Revoked;
    }

    /** A recovery key is minted exactly for a tenant that is not suspended and has no key the
        transaction sees live, and is then the only one. */
    method MintRecoveryKey(id: Id, k: Id, now: nat) returns (r: Reply)
      requires k !in db.keys && now <= db.clock
      modifies this
      ensures (db, r) == Recover(old(db), id, k, now)
      ensures r == Secret(k) ==> db.keys[k].expires == At(now + PROVISIONAL_KEY_TTL)
      ensures r == Secret(k) <==>
                id in old(db).tenants && !old(db).tenants[id].suspended && LiveAt(old(db), id, now) == {}
      ensures r == Secret(k) ==> LiveAt(db, id, now) == {k} && db.keys[k].provisional && OnlyKey(old(db), db, id, k)
      ensures r != Secret(k) ==> db == old(db)
      ensures r.RefusedLiveKeys? ==> r.live == |LiveAt(db, id, now)| > 0
    {
      if id !in db.tenants {
        return NotFound;
      }
      if db.tenants[id].suspended {
        return RefusedSuspended;
      }
      var live := LiveAt(db, id, now);
      if live != {} {
        return RefusedLiveKeys(|live|);
      }
      ghost var before := db;
      db := InsertProvisional(db, id, k, now);
      assert forall l :: l in LiveAt(db, id, now) && l != k ==> l in LiveAt(before, id, now);
      assert k in LiveAt(db, id, now);
      return Secret(k);
    }
  }

  // ---- Runs ------------------------------------------------------------------------------------

  datatype Event =
    | CreateEvent(id: Id, tenant: Tenant, keyId: Id, now: nat)
    | ReplayEvent(id: Id, keyId: Id, now: nat)
    | ConfirmEvent(id: Id, keyId: Id, creator: string, now: nat)
    | MintEvent(id: Id, keyId: Id, expires: Expiry, now: nat)
    | RevokeEvent(id: Id, keyId: Id, force: bool, now: nat)
    | RecoverEvent(id: Id, keyId: Id, now: nat)
    | SuspendEvent(id: Id, creator: string)
    | SetSuspendedEvent(id: Id, suspended: bool)
    | DropEvent(id: Id)
    | Tick(seconds: nat)

  predicate Generates(ev: Event) {
    ev.CreateEvent? || ev.ReplayEvent? || ev.MintEvent? || ev.RecoverEvent?
  }

  /** A generated key id is new, and a transaction has begun before it commits; no other event happens. */
  predicate Happens(db: Db, ev: Event) {
    && (Generates(ev) ==> ev.keyId !in db.issued)
    && (Generates(ev) || ev.ConfirmEvent? || ev.RevokeEvent? ==> ev.now <= db.clock)
  }

  function Step(db: Db, ev: Event): Db {
    if !Happens(db, ev) then db
    else match ev
      case CreateEvent(id, tenant, k, now) => Create(db, id, tenant, k, now).0
      case ReplayEvent(id, k, now) => Replay(db, id, k, now).0
      case ConfirmEvent(id, k, creator, now) => Confirm(db, id, k, creator, now).0
      case MintEvent(id, k, expires, now) => Mint(db, id, k, expires, now).0
      case RevokeEvent(id, k, force, now) => Revoke(db, id, k, force, now).0
      case RecoverEvent(id, k, now) => Recover(db, id, k, now).0
      case SuspendEvent(id, creator) => Suspend(db, id, creator).0
      case SetSuspendedEvent(id, suspended) => SetSuspended(db, id, suspended).0
      case DropEvent(id) => Drop(db, id).0
      case Tick(seconds) => db.(clock := db.clock + seconds)
  }

  function Reach(db: Db, events: seq<Event>): Db {
    if events == [] then db else Step(Reach(db, events[..|events| - 1]), events[|events| - 1])
  }

  const EMPTY := Db(map[], map[], {}, 0)

  /** A confirm that began while its key was provisional and live, and commits after the key lapsed. */
  predicate Revives(db: Db, ev: Event, k: Id) {
    && ev.ConfirmEvent? && ev.keyId == k && ev.id in db.tenants
    && ev.creator != "" && db.tenants[ev.id].creator == ev.creator
    && k in db.keys && db.keys[k].tenant == ev.id && db.keys[k].provisional && !db.keys[k].disabled
    && db.keys[k].expires.At? && ev.now < db.keys[k].expires.time <= db.clock
  }

  // ---- What every committed state keeps --------------------------------------------------------

  ghost predicate KeysBelong(db: Db) {
    forall k :: k in db.keys ==> k in db.issued && db.keys[k].tenant in db.tenants
  }

  predicate LiveProvisional(db: Db, id: Id, k: Id) {
    Live(db, k) && db.keys[k].tenant == id && db.keys[k].provisional
  }

  /** Two live provisional keys of one tenant are the same key. */
  ghost predicate OneProvisional(db: Db) {
    forall id, k, l :: LiveProvisional(db, id, k) && LiveProvisional(db, id, l) ==> k == l
  }

  lemma {:induction false} StepKeepsKeys(db: Db, ev: Event)
    requires KeysBelong(db)
    ensures KeysBelong(Step(db, ev))
  {
  }

  /** A transaction that began earlier sees no fewer live keys than there are. */
  lemma {:induction false} LaterIsFewer(db: Db, id: Id, now: nat)
    requires now <= db.clock
    ensures LiveKeys(db, id) <= LiveAt(db, id, now) && |LiveKeys(db, id)| <= |LiveAt(db, id, now)|
  {
    SubsetSize(LiveKeys(db, id), LiveAt(db, id, now));
  }

  lemma {:induction false} StepKeepsOneProvisional(db: Db, ev: Event)
    requires KeysBelong(db) && OneProvisional(db)
    ensures OneProvisional(Step(db, ev))
  {
    var db' := Step(db, ev);
    forall id, k, l | LiveProvisional(db', id, k) && LiveProvisional(db', id, l) ensures k == l {
      assert !Generates(ev) || db' == db || k != ev.keyId ==> LiveProvisional(db, id, k);
      assert !Generates(ev) || db' == db || l != ev.keyId ==> LiveProvisional(db, id, l);
      if Generates(ev) && !ev.MintEvent? && ev.id == id && db' != db {
        FirstKeyAlone(db, ev, id);
        assert k in LiveKeys(db', id) && l in LiveKeys(db', id);
      }
    }
  }

  lemma {:induction false} SubsetSize(a: set<Id>, b: set<Id>)
    requires a <= b
    ensures |a| <= |b|
  {
    assert b == a + (b - a);
  }

  predicate RevivesOne(db: Db, ev: Event, id: Id) {
    ev.ConfirmEvent? && ev.id == id && Revives(db, ev, ev.keyId)
  }

  /** How an event can change the live keys of a tenant: it adds at most the key it names, and adds
      it only to few others, unless it revives it. */
  lemma {:induction false} StepKeepsLimit(db: Db, ev: Event, id: Id, n: nat)
    requires KeysBelong(db) && |LiveKeys(db, id)| <= MAX_LIVE_TENANT_KEYS + n
    ensures |LiveKeys(Step(db, ev), id)| <= MAX_LIVE_TENANT_KEYS + n + if RevivesOne(db, ev, id) then 1 else 0
  {
    var db', before, after := Step(db, ev), LiveKeys(db, id), LiveKeys(Step(db, ev), id);
    if ev.MintEvent? && ev.id == id && db' != db {
      LaterIsFewer(db, id, ev.now);
      assert after <= before + {ev.keyId};
      SubsetSize(after, before + {ev.keyId});
    } else if Generates(ev) && !ev.MintEvent? && ev.id == id && db' != db {
      FirstKeyAlone(db, ev, id);
      SubsetSize(after, {ev.keyId});
    } else if RevivesOne(db, ev, id) {
      assert after <= before + {ev.keyId};
      SubsetSize(after, before + {ev.keyId});
    } else {
      assert after <= before;
      SubsetSize(after, before);
    }
  }

  /** No key of the tenant but the one that is handed out authenticates. */
  lemma {:induction false} FirstKeyAlone(db: Db, ev: Event, id: Id)
    requires KeysBelong(db) && (ev.CreateEvent? || ev.ReplayEvent? || ev.RecoverEvent?) && ev.id == id
    ensures Step(db, ev) == db || LiveKeys(Step(db, ev), id) <= {ev.keyId}
  {
    var db', now := Step(db, ev), ev.now;
    if db' != db {
      forall k | k in LiveKeys(db', id) ensures k == ev.keyId {
        assert k != ev.keyId ==> k in LiveAt(db, id, now) && k in ConfirmedAt(db, id, now);
      }
    }
  }

  function Revivals(db: Db, events: seq<Event>, id: Id): nat {
    if events == [] then 0
    else
      var n := |events| - 1;
      Revivals(db, events[..n], id) + if RevivesOne(Reach(db, events[..n]), events[n], id) then 1 else 0
  }

  /** Over every run of creates, replays, confirms, mints, revokes, recoveries, suspensions and drops,
      a tenant has at most one live provisional key, and never more than 25 live keys beyond those that
      confirms revived after they had lapsed. */
  lemma {:induction false} KeysStayBounded(events: seq<Event>, id: Id)
    ensures KeysBelong(Reach(EMPTY, events)) && OneProvisional(Reach(EMPTY, events))
    ensures |LiveKeys(Reach(EMPTY, events), id)| <= MAX_LIVE_TENANT_KEYS + Revivals(EMPTY, events, id)
  {
    if events == [] {
      assert LiveKeys(EMPTY, id) == {};
    } else {
      var n := |events| - 1;
      KeysStayBounded(events[..n], id);
      StepKeepsKeys(Reach(EMPTY, events[..n]), events[n]);
      StepKeepsOneProvisional(Reach(EMPTY, events[..n]), events[n]);
      StepKeepsLimit(Reach(EMPTY, events[..n]), events[n], id, Revivals(EMPTY, events[..n], id));
    }
  }

  /** A dead key authenticates after an event exactly when the event revives it. */
  lemma {:induction false} DeadStepsDead(db: Db, ev: Event, k: Id)
    requires k in db.issued && !Live(db, k)
    ensures k in Step(db, ev).issued && (Live(Step(db, ev), k) <==> Revives(db, ev, k))
  {
  }

  /** Some event of the run revives the key. */
  predicate Revived(db: Db, events: seq<Event>, k: Id) {
    events != [] &&
    var n := |events| - 1;
    Revived(db, events[..n], k) || Revives(Reach(db, events[..n]), events[n], k)
  }

  /** A key that was issued and does not authenticate (revoked, lapsed, or dropped with its tenant)
      stays so through every run in which no confirm that began before its expiry commits after it. */
  lemma {:induction false} DeadStaysDead(db: Db, events: seq<Event>, k: Id)
    requires k in db.issued && !Live(db, k) && !Revived(db, events, k)
    ensures k in Reach(db, events).issued && !Live(Reach(db, events), k)
  {
    if events != [] {
      DeadStaysDead(db, events[..|events| - 1], k);
      DeadStepsDead(Reach(db, events[..|events| - 1]), events[|events| - 1], k);
    }
  }

  /** Issued, and revoked or dropped with its tenant. */
  predicate Dead(db: Db, k: Id) {
    k in db.issued && (k in db.keys ==> db.keys[k].disabled)
  }

  lemma {:induction false} DeadSteps(db: Db, ev: Event, k: Id)
    requires Dead(db, k)
    ensures Dead(Step(db, ev), k)
  {
  }

  /** A revoked key, and a key dropped with its tenant, never authenticates again. */
  lemma {:induction false} RevokedStaysDead(db: Db, events: seq<Event>, k: Id)
    requires Dead(db, k)
    ensures Dead(Reach(db, events), k) && !Live(Reach(db, events), k)
  {
    if events != [] {
      RevokedStaysDead(db, events[..|events| - 1], k);
      DeadSteps(Reach(db, events[..|events| - 1]), events[|events| - 1], k);
    }
  }

  /** So a lapsed key can come back exactly if it is provisional and not revoked: one confirm by its
      creator that began in time does it. */
  lemma {:induction false} LapsedKeyCanRevive(db: Db, k: Id)
    requires KeysBelong(db) && k in db.keys && !Live(db, k) && db.tenants[db.keys[k].tenant].creator != ""
    ensures (exists ev :: Live(Step(db, ev), k))
       <==> db.keys[k].provisional && !db.keys[k].disabled && db.keys[k].expires.time > 0
  {
    forall ev ensures Live(Step(db, ev), k) ==> Revives(db, ev, k) { DeadStepsDead(db, ev, k); }
    if db.keys[k].provisional && !db.keys[k].disabled && db.keys[k].expires.time > 0 {
      var id := db.keys[k].tenant;
      var ev := ConfirmEvent(id, k, db.tenants[id].creator, 0);
      assert Revives(db, ev, k);
      DeadStepsDead(db, ev, k);
      assert Live(Step(db, ev), k);
    }
  }

  // ---- One key too many ------------------------------------------------------------------------

  function Minted(n: nat): Id {
    seq(n, _ => 'm')
  }

  /** `n` keys of the tenant are live in `db'`, all of them new since `db`. */
  ghost predicate HasMinted(db: Db, db': Db, id: Id, n: nat) {
    && db'.tenants == db.tenants && db'.clock == db.clock && |LiveKeys(db', id)| == n
    && (forall k :: k in db.keys ==> k in db'.keys && db'.keys[k] == db.keys[k])
    && (forall i: nat :: i >= n ==> Minted(i) !in db'.issued)
    && (forall k :: k in db.keys ==> k !in LiveKeys(db', id))
  }

  lemma {:induction false} MintOne(db: Db, db1: Db, id: Id, n: nat)
    requires KeysBelong(db) && KeysBelong(db1) && HasMinted(db, db1, id, n) && id in db.tenants
    requires n < MAX_LIVE_TENANT_KEYS && db.issued <= db1.issued
    ensures HasMinted(db, Step(db1, MintEvent(id, Minted(n), Never, db.clock)), id, n + 1)
    ensures db.issued <= Step(db1, MintEvent(id, Minted(n), Never, db.clock)).issued
  {
    var k := Minted(n);
    var db2 := Step(db1, MintEvent(id, k, Never, db.clock));
    assert db2 == InsertKey(db1, k, Key(id, false, false, Never));
    assert k !in db1.keys && LiveKeys(db2, id) == LiveKeys(db1, id) + {k};
    forall i: nat | i > n ensures Minted(i) !in db2.issued { assert |Minted(i)| != |k|; }
  }

  lemma {:induction false} MintMany(db: Db, id: Id, n: nat) returns (events: seq<Event>)
    requires KeysBelong(db) && id in db.tenants && LiveKeys(db, id) == {} && n <= MAX_LIVE_TENANT_KEYS
    requires forall i: nat :: Minted(i) !in db.issued
    ensures HasMinted(db, Reach(db, events), id, n) && KeysBelong(Reach(db, events))
    ensures db.issued <= Reach(db, events).issued
  {
    events := [];
    if n > 0 {
      var before := MintMany(db, id, n - 1);
      var ev := MintEvent(id, Minted(n - 1), Never, db.clock);
      MintOne(db, Reach(db, before), id, n - 1);
      StepKeepsKeys(Reach(db, before), ev);
      assert (before + [ev])[..|before|] == before;
      events := before + [ev];
    }
  }

  /** The limit of 25 is exceeded by one confirm: the key of a create lapses, 25 keys are minted, and a
      confirm that began before the lapse commits. */
  lemma {:induction false} OneKeyTooMany() returns (events: seq<Event>)
    ensures |LiveKeys(Reach(EMPTY, events), "i")| == MAX_LIVE_TENANT_KEYS + 1
  {
    var create, lapse, confirm := CreateEvent("i", Tenant("n", "o", "c", false), "k", 0), Tick(PROVISIONAL_KEY_TTL),
                                  ConfirmEvent("i", "k", "c", 0);
    var lapsed := Step(Step(EMPTY, create), lapse);
    assert LiveKeys(lapsed, "i") == {};
    forall i: nat ensures Minted(i) !in lapsed.issued { assert i == 1 ==> Minted(i)[0] == 'm'; }
    var mints := MintMany(lapsed, "i", MAX_LIVE_TENANT_KEYS);
    ReviveAdds(lapsed, Reach(lapsed, mints), confirm);
    ReachTwo(EMPTY, create, lapse);
    ReachOn(EMPTY, [create, lapse], mints + [confirm]);
    assert (mints + [confirm])[..|mints|] == mints;
    events := [create, lapse] + (mints + [confirm]);
  }

  lemma {:induction false} ReachTwo(db: Db, a: Event, b: Event)
    ensures Reach(db, [a, b]) == Step(Step(db, a), b)
  {
    assert [a, b][..1] == [a] && [a][..0] == [];
    assert Reach(db, []) == db;
    assert Reach(db, [a]) == Step(db, a);
  }

  lemma {:induction false} ReviveAdds(db: Db, db1: Db, ev: Event)
    requires HasMinted(db, db1, "i", MAX_LIVE_TENANT_KEYS) && ev.ConfirmEvent? && ev.id == "i" && Revives(db, ev, ev.keyId)
    ensures |LiveKeys(Step(db1, ev), "i")| == MAX_LIVE_TENANT_KEYS + 1
  {
    assert Revives(db1, ev, ev.keyId);
    assert LiveKeys(Step(db1, ev), "i") == LiveKeys(db1, "i") + {ev.keyId};
  }

  lemma {:induction false} ReachOn(db: Db, a: seq<Event>, b: seq<Event>)
    ensures Reach(db, a + b) == Reach(Reach(db, a), b)
  {
    if b == [] {
      assert a + b == a;
    } else {
      var n := |b| - 1;
      ReachOn(db, a, b[..n]);
      assert (a + b)[..|a + b| - 1] == a + b[..n];
    }
  }

  // ---- Single transactions ---------------------------------------------------------------------

  /** A provisional key becomes permanent only by a confirm that names it, made by its tenant's
      creator, and live when the confirm began. */
  lemma {:induction false} OnlyConfirmMakesPermanent(db: Db, ev: Event, k: Id)
    requires KeysBelong(db) && k in db.keys && db.keys[k].provisional
    requires k in Step(db, ev).keys && !Step(db, ev).keys[k].provisional
    ensures ev.ConfirmEvent? && ev.keyId == k && ev.id == db.keys[k].tenant && Unexpired(db.keys[k], ev.now)
    ensures ev.id in db.tenants && ev.creator == db.tenants[ev.id].creator && ev.creator != ""
  {
  }

  predicate Ends(db: Db, ev: Event, k: Id)
    requires k in db.keys
  {
    (ev.RevokeEvent? && ev.keyId == k) || (ev.DropEvent? && ev.id == db.keys[k].tenant)
  }

  lemma {:induction false} PermanentSteps(db: Db, ev: Event, k: Id)
    requires KeysBelong(db) && Permanent(db, k)
    ensures Ends(db, ev, k) || (Permanent(Step(db, ev), k) && Step(db, ev).keys[k].tenant == db.keys[k].tenant)
  {
  }

  /** A confirmed key goes on authenticating, whatever time passes and whatever else happens, until it
      is revoked by name or its tenant is dropped. */
  lemma {:induction false} PermanentStays(db: Db, events: seq<Event>, k: Id)
    requires KeysBelong(db) && Permanent(db, k)
    requires forall i :: 0 <= i < |events| ==> !Ends(db, events[i], k)
    ensures KeysBelong(Reach(db, events)) && Permanent(Reach(db, events), k)
    ensures Reach(db, events).keys[k].tenant == db.keys[k].tenant
  {
    if events != [] {
      var n := |events| - 1;
      assert forall i :: 0 <= i < n ==> events[..n][i] == events[i];
      PermanentStays(db, events[..n], k);
      StepKeepsKeys(Reach(db, events[..n]), events[n]);
      PermanentSteps(Reach(db, events[..n]), events[n], k);
    }
  }

  /** A confirm makes exactly the named key permanent and leaves every other key alone; a revoke kills
      exactly the named key. */
  lemma {:induction false} OnlyTheNamedKey(db: Db, id: Id, k: Id, creator: string, force: bool, now: nat, other: Id)
    requires other in db.keys && other != k
    ensures Confirm(db, id, k, creator, now).1 == Confirmed ==> Permanent(Confirm(db, id, k, creator, now).0, k)
    ensures Revoke(db, id, k, force, now).1 == Revoked ==> !Live(Revoke(db, id, k, force, now).0, k)
    ensures other in Confirm(db, id, k, creator, now).0.keys
         && Confirm(db, id, k, creator, now).0.keys[other] == db.keys[other]
    ensures other in Revoke(db, id, k, force, now).0.keys
         && Revoke(db, id, k, force, now).0.keys[other] == db.keys[other]
  {
  }

  /** A revoke without force leaves another key that authenticates exactly when one of the keys it
      counted did not lapse between its begin and its commit; with the statement's clock, always. */
  lemma {:induction false} RevokeLeavesAKey(db: Db, id: Id, k: Id, now: nat)
    requires now <= db.clock && Revoke(db, id, k, false, now).1 == Revoked
    ensures LiveKeys(Revoke(db, id, k, false, now).0, id) != {}
       <==> exists other :: other != k && other in LiveAt(db, id, now)
                         && (db.keys[other].expires.Never? || db.keys[other].expires.time > db.clock)
    ensures now == db.clock ==> LiveKeys(Revoke(db, id, k, false, now).0, id) != {}
  {
    var after := LiveKeys(Revoke(db, id, k, false, now).0, id);
    var counted :| counted in LiveAt(db, id, now) - {k};
    assert now == db.clock ==> counted in after;
    forall other | other != k && other in LiveAt(db, id, now)
                   && (db.keys[other].expires.Never? || db.keys[other].expires.time > db.clock)
      ensures other in after
    {
    }
    if after != {} {
      var other :| other in after;
      assert other != k && other in LiveAt(db, id, now);
    }
  }

  /** The gap is real: the other key lapses while the revoke waits, and the tenant is left with none. */
  lemma {:induction false} RevokeCanLockOut()
    ensures var confirmed := Step(Step(EMPTY, CreateEvent("i", Tenant("n", "o", "c", false), "k", 0)),
                                  ConfirmEvent("i", "k", "c", 0));
            var db := Step(Step(confirmed, MintEvent("i", "l", At(5), 0)), Tick(5));
            Revoke(db, "i", "k", false, 4).1 == Revoked && LiveKeys(Revoke(db, "i", "k", false, 4).0, "i") == {}
  {
    var created := Step(EMPTY, CreateEvent("i", Tenant("n", "o", "c", false), "k", 0));
    assert "k" in LiveAt(created, "i", 0);
    var confirmed := Step(created, ConfirmEvent("i", "k", "c", 0));
    assert LiveAt(confirmed, "i", 0) == {"k"};
    var db := Step(Step(confirmed, MintEvent("i", "l", At(5), 0)), Tick(5));
    assert "l" in LiveAt(db, "i", 4) - {"k"};
  }

  /** A replay hands out a secret exactly when the tenant exists and the transaction sees no live
      confirmed key; then none is live at its commit either, and the key it names is the only one of
      the tenant that can authenticate. */
  lemma {:induction false} ReplaySecret(db: Db, id: Id, k: Id, now: nat)
    requires KeysBelong(db) && k !in db.issued && now <= db.clock
    ensures Replay(db, id, k, now).1 == Secret(k) <==> id in db.tenants && ConfirmedAt(db, id, now) == {}
    ensures Replay(db, id, k, now).1 == Secret(k) ==>
              && ConfirmedAt(db, id, db.clock) == {}
              && LiveKeys(Replay(db, id, k, now).0, id) == if now + PROVISIONAL_KEY_TTL > db.clock then {k} else {}
    ensures Replay(db, id, k, now).1 != Secret(k) ==> Replay(db, id, k, now).0 == db
  {
    if id in db.tenants && ConfirmedAt(db, id, now) == {} {
      FirstKeyAlone(db, ReplayEvent(id, k, now), id);
      assert forall l :: l in ConfirmedAt(db, id, db.clock) ==> l in ConfirmedAt(db, id, now);
      var db' := Replay(db, id, k, now).0;
      assert db' == Step(db, ReplayEvent(id, k, now)) && k !in db.keys;
      assert k in LiveKeys(db', id) <==> now + PROVISIONAL_KEY_TTL > db.clock;
    }
  }

  /** The handshake: a create followed, before the key lapses, by a confirm naming it leaves the tenant
      with that permanent key; a replay in between makes the same confirm fail, whenever it began, and
      leaves no key the creator does not hold permanent. */
  lemma {:induction false} ConfirmAfterReplayFails(db: Db, id: Id, t: Tenant, k: Id, l: Id, wait: nat, now: nat)
    requires KeysBelong(db) && id !in db.tenants && k !in db.issued && l !in db.issued && k != l && t.creator != ""
    requires wait < PROVISIONAL_KEY_TTL && now <= db.clock + wait
    ensures var created := Step(Step(db, CreateEvent(id, t, k, db.clock)), Tick(wait));
            var replayed := Step(created, ReplayEvent(id, l, created.clock));
            && Confirm(created, id, k, t.creator, now).1 == Confirmed
            && Confirm(replayed, id, k, t.creator, now).1 == NoProvisionalKey
            && Confirm(replayed, id, l, t.creator, now).1 == Confirmed
  {
    var created := Step(Step(db, CreateEvent(id, t, k, db.clock)), Tick(wait));
    assert k in LiveAt(created, id, now);
    assert ConfirmedAt(created, id, created.clock) == {};
    var replayed := Step(created, ReplayEvent(id, l, created.clock));
    assert l in LiveAt(replayed, id, now) && k !in LiveAt(replayed, id, now);
  }
}
