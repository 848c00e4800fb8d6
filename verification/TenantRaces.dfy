/**
 Creating, dropping and re-admitting a tenant id, statement by statement. A transaction's writes
 become visible at its commit; from its first write of a tenant row to its end it holds that row, and
 whoever wants the row waits. Anything may happen between two statements, and any process may stop.
 */
module TenantRaces {
  import opened Tenants

  datatype Tombstone = Tombstone(name: string, org: Id, creator: string, droppedBy: string)

  datatype Phase =
    | Filtered                   // the early tombstone check passed
    | Absent                     // the tenant row was read and is not there
    | Cleared                    // tombstone checked before the insert (only when checking early)
    | Inserted                   // the row is inserted, not committed
    | Passed                     // inserted, and no tombstone was found
    | Asked                      // a drop was requested
    | Locked(row: Tenant)        // the drop holds the row
    | Counted(row: Tenant)       // suspended, and no unsettled run was found

  /** A create of `tenant`, or a drop by `actor`, under the id. */
  datatype Process = Process(id: Id, tenant: Tenant, actor: string, phase: Phase)

  /** `runs` counts the unsettled runs of an id; a starter has read that its id is not suspended and
      has not inserted its run yet. */
  datatype State = State(
    tenants: map<Id, Tenant>,
    tombstones: map<Id, Tombstone>,
    runs: map<Id, nat>,
    starters: map<nat, Id>,
    locks: map<Id, nat>,
    processes: map<nat, Process>)

  datatype Event =
    | AskCreate(p: nat, id: Id, tenant: Tenant)
    | ReadTenant(p: nat)
    | CheckTombstone(p: nat)
    | InsertTenant(p: nat)
    | CommitCreate(p: nat)
    | AskDrop(p: nat, id: Id, actor: string)
    | LockTenant(p: nat)
    | CheckDrop(p: nat)
    | CommitDrop(p: nat)
    | Abort(p: nat)
    | DeleteTombstone(id: Id)
    | SetSuspended(id: Id, suspended: bool)
    | AskStart(s: nat, id: Id)
    | InsertRun(s: nat)
    | SpawnRun(id: Id)
    | SettleRun(id: Id)

  function Enter(st: State, p: nat, phase: Phase): State
    requires p in st.processes
  {
    st.(processes := st.processes[p := st.processes[p].(phase := phase)])
  }

  /** The process comes to hold the row of its id. */
  function Acquire(st: State, p: nat, phase: Phase): State
    requires p in st.processes
  {
    Enter(st, p, phase).(locks := st.locks[st.processes[p].id := p])
  }

  /** The transaction ends: its locks are released and its process is over. */
  function Leave(st: State, p: nat): State {
    st.(processes := st.processes - {p},
        locks := map id | id in st.locks && st.locks[id] != p :: st.locks[id])
  }

  predicate In(st: State, p: nat, phase: Phase) {
    p in st.processes && st.processes[p].phase == phase
  }

  /** `late` is the order the code uses: insert the row, then look for a tombstone. */
  function Step(st: State, ev: Event, late: bool): State {
    if OfCreate(ev) then CreateStep(st, ev, late) else if OfRun(ev) then RunStep(st, ev) else DropStep(st, ev)
  }

  predicate OfCreate(ev: Event) {
    ev.AskCreate? || ev.ReadTenant? || ev.CheckTombstone? || ev.InsertTenant? || ev.CommitCreate?
  }

  predicate OfRun(ev: Event) {
    ev.AskStart? || ev.InsertRun? || ev.SpawnRun? || ev.SettleRun?
  }

  function CreateStep(st: State, ev: Event, late: bool): State {
    match ev
    case AskCreate(p, id, tenant) => AskCreateStep(st, p, id, tenant)
    case ReadTenant(p) => ReadStep(st, p)
    case CheckTombstone(p) => TombstoneStep(st, p, late)
    case InsertTenant(p) => InsertStep(st, p, late)
    case CommitCreate(p) => CommitCreateStep(st, p)
    case _ => st
  }

  function DropStep(st: State, ev: Event): State {
    match ev
    case AskDrop(p, id, actor) => AskDropStep(st, p, id, actor)
    case LockTenant(p) => LockStep(st, p)
    case CheckDrop(p) => CheckDropStep(st, p)
    case CommitDrop(p) => CommitDropStep(st, p)
    case Abort(p) => Leave(st, p)
    case DeleteTombstone(id) => st.(tombstones := st.tombstones - {id})
    case SetSuspended(id, suspended) => SuspendStep(st, id, suspended)
    case _ => st
  }

  /** A start takes no lock on the tenant: it reads the flag, and inserts its run later. An unsettled
      run may start others of the same tenant. */
  function RunStep(st: State, ev: Event): State {
    match ev
    case AskStart(s, id) => AskStartStep(st, s, id)
    case InsertRun(s) => InsertRunStep(st, s)
    case SpawnRun(id) => if RunsOf(st, id) > 0 then AddRun(st, id) else st
    case SettleRun(id) => SettleStep(st, id)
    case _ => st
  }

  function AskStartStep(st: State, s: nat, id: Id): State {
    if s in st.starters || Closed(st, id) then st else st.(starters := st.starters[s := id])
  }

  function InsertRunStep(st: State, s: nat): State {
    if s in st.starters then AddRun(st, st.starters[s]).(starters := st.starters - {s}) else st
  }

  function SettleStep(st: State, id: Id): State {
    if RunsOf(st, id) > 0 then st.(runs := st.runs[id := RunsOf(st, id) - 1]) else st
  }

  /** Suspended or dropped, as a start reads it. An id with no row at all is open. */
  predicate Closed(st: State, id: Id) {
    id in st.tombstones || (id in st.tenants && st.tenants[id].suspended)
  }

  function AddRun(st: State, id: Id): State {
    st.(runs := st.runs[id := RunsOf(st, id) + 1])
  }

  function AskCreateStep(st: State, p: nat, id: Id, tenant: Tenant): State {
    if p in st.processes || id in st.tombstones then st
    else st.(processes := st.processes[p := Process(id, tenant.(suspended := false), "", Filtered)])
  }

  /** A row that is there turns the create into a replay, which is not followed here. */
  function ReadStep(st: State, p: nat): State {
    if !In(st, p, Filtered) then st
    else if st.processes[p].id in st.tenants then Leave(st, p)
    else Enter(st, p, Absent)
  }

  function TombstoneStep(st: State, p: nat, late: bool): State {
    if !In(st, p, if late then Inserted else Absent) then st
    else if st.processes[p].id in st.tombstones then Leave(st, p)
    else Enter(st, p, if late then Passed else Cleared)
  }

  /** The insert waits for whoever holds the row; a row that is there sends the create to a second
      pass. */
  function InsertStep(st: State, p: nat, late: bool): State {
    if !In(st, p, if late then Absent else Cleared) || st.processes[p].id in st.locks then st
    else if st.processes[p].id in st.tenants then Enter(st, p, Filtered)
    else Acquire(st, p, if late then Inserted else Passed)
  }

  function CommitCreateStep(st: State, p: nat): State {
    if !In(st, p, Passed) then st
    else Leave(st, p).(tenants := st.tenants[st.processes[p].id := st.processes[p].tenant])
  }

  function AskDropStep(st: State, p: nat, id: Id, actor: string): State {
    if p in st.processes then st
    else st.(processes := st.processes[p := Process(id, Tenant("", "", "", false), actor, Asked)])
  }

  function LockStep(st: State, p: nat): State {
    if !In(st, p, Asked) || st.processes[p].id in st.locks then st
    else if st.processes[p].id !in st.tenants then Leave(st, p)
    else Acquire(st, p, Locked(st.tenants[st.processes[p].id]))
  }

  function CheckDropStep(st: State, p: nat): State {
    if p !in st.processes || !st.processes[p].phase.Locked? then st
    else if !st.processes[p].phase.row.suspended || RunsOf(st, st.processes[p].id) > 0 then Leave(st, p)
    else Enter(st, p, Counted(st.processes[p].phase.row))
  }

  /** The tombstone is written and everything of the tenant is deleted, its runs included. */
  function CommitDropStep(st: State, p: nat): State {
    if p !in st.processes || !st.processes[p].phase.Counted? then st
    else if st.processes[p].id in st.tombstones then Leave(st, p)
    else Leave(st, p).(tenants := st.tenants - {st.processes[p].id}, runs := st.runs - {st.processes[p].id},
                       tombstones := st.tombstones[st.processes[p].id := TombstoneOf(st.processes[p])])
  }

  function SuspendStep(st: State, id: Id, suspended: bool): State {
    if id !in st.tenants || id in st.locks then st
    else st.(tenants := st.tenants[id := st.tenants[id].(suspended := suspended)])
  }

  function RunsOf(st: State, id: Id): nat {
    if id in st.runs then st.runs[id] else 0
  }

  function TombstoneOf(q: Process): Tombstone
    requires q.phase.Counted?
  {
    Tombstone(q.phase.row.name, q.phase.row.org, q.phase.row.creator, q.actor)
  }

  const EMPTY := State(map[], map[], map[], map[], map[], map[])

  function Reach(events: seq<Event>, late: bool): State {
    if events == [] then EMPTY
    else Step(Reach(events[..|events| - 1], late), events[|events| - 1], late)
  }

  // ---- What every state keeps ------------------------------------------------------------------

  predicate Holding(phase: Phase) {
    phase.Inserted? || phase.Passed? || phase.Locked? || phase.Counted?
  }

  /** What a process that holds the row of its id knows of the committed tables. */
  predicate Informed(st: State, q: Process) {
    match q.phase
    case Inserted => q.id !in st.tenants
    case Passed => q.id !in st.tenants && q.id !in st.tombstones
    case Locked(row) => q.id in st.tenants && st.tenants[q.id] == row
    case Counted(row) => q.id in st.tenants && st.tenants[q.id] == row && row.suspended
    case _ => true
  }

  ghost predicate LocksValid(st: State) {
    && (forall id :: id in st.locks ==>
          st.locks[id] in st.processes && st.processes[st.locks[id]].id == id && Holding(st.processes[st.locks[id]].phase))
    && (forall p :: p in st.processes && Holding(st.processes[p].phase) ==>
          st.processes[p].id in st.locks && st.locks[st.processes[p].id] == p)
  }

  ghost predicate Inv(st: State) {
    && LocksValid(st)
    && (forall p :: p in st.processes ==> Informed(st, st.processes[p]))
    && st.tenants.Keys !! st.tombstones.Keys
  }

  lemma {:induction false} LeaveKeeps(st: State, p: nat)
    requires Inv(st)
    ensures Inv(Leave(st, p))
  {
  }

  lemma {:induction false} EnterKeeps(st: State, p: nat, phase: Phase)
    requires Inv(st) && p in st.processes && Holding(phase) == Holding(st.processes[p].phase)
    requires Informed(st, st.processes[p].(phase := phase))
    ensures Inv(Enter(st, p, phase))
  {
  }

  lemma {:induction false} AcquireKeeps(st: State, p: nat, phase: Phase)
    requires Inv(st) && p in st.processes && !Holding(st.processes[p].phase) && Holding(phase)
    requires st.processes[p].id !in st.locks && Informed(st, st.processes[p].(phase := phase))
    ensures Inv(Acquire(st, p, phase))
  {
  }

  lemma {:induction false} AskCreateKeeps(st: State, p: nat, id: Id, tenant: Tenant)
    requires Inv(st)
    ensures Inv(AskCreateStep(st, p, id, tenant))
  {
  }

  lemma {:induction false} ReadKeeps(st: State, p: nat)
    requires Inv(st)
    ensures Inv(ReadStep(st, p))
  {
    if In(st, p, Filtered) {
      if st.processes[p].id in st.tenants { LeaveKeeps(st, p); } else { EnterKeeps(st, p, Absent); }
    }
  }

  lemma {:induction false} TombstoneKeeps(st: State, p: nat)
    requires Inv(st)
    ensures Inv(TombstoneStep(st, p, true))
  {
    if In(st, p, Inserted) {
      if st.processes[p].id in st.tombstones { LeaveKeeps(st, p); } else { EnterKeeps(st, p, Passed); }
    }
  }

  lemma {:induction false} InsertKeeps(st: State, p: nat)
    requires Inv(st)
    ensures Inv(InsertStep(st, p, true))
  {
    if In(st, p, Absent) && st.processes[p].id !in st.locks {
      if st.processes[p].id in st.tenants { EnterKeeps(st, p, Filtered); } else { AcquireKeeps(st, p, Inserted); }
    }
  }

  lemma {:induction false} CommitCreateKeeps(st: State, p: nat)
    requires Inv(st)
    ensures Inv(CommitCreateStep(st, p))
  {
  }

  lemma {:induction false} AskDropKeeps(st: State, p: nat, id: Id, actor: string)
    requires Inv(st)
    ensures Inv(AskDropStep(st, p, id, actor))
  {
  }

  lemma {:induction false} LockKeeps(st: State, p: nat)
    requires Inv(st)
    ensures Inv(LockStep(st, p))
  {
    if In(st, p, Asked) && st.processes[p].id !in st.locks {
      if st.processes[p].id !in st.tenants { LeaveKeeps(st, p); }
      else { AcquireKeeps(st, p, Locked(st.tenants[st.processes[p].id])); }
    }
  }

  lemma {:induction false} CheckDropKeeps(st: State, p: nat)
    requires Inv(st)
    ensures Inv(CheckDropStep(st, p))
  {
    if p in st.processes && st.processes[p].phase.Locked? {
      LeaveKeeps(st, p);
      if st.processes[p].phase.row.suspended { EnterKeeps(st, p, Counted(st.processes[p].phase.row)); }
    }
  }

  lemma {:induction false} CommitDropKeeps(st: State, p: nat)
    requires Inv(st)
    ensures Inv(CommitDropStep(st, p))
  {
  }

  lemma {:induction false} SuspendKeeps(st: State, id: Id, suspended: bool)
    requires Inv(st)
    ensures Inv(SuspendStep(st, id, suspended))
  {
  }

  lemma {:induction false} CreateKeeps(st: State, ev: Event)
    requires Inv(st)
    ensures Inv(CreateStep(st, ev, true))
  {
    match ev
    case AskCreate(p, id, tenant) => AskCreateKeeps(st, p, id, tenant);
    case ReadTenant(p) => ReadKeeps(st, p);
    case CheckTombstone(p) => TombstoneKeeps(st, p);
    case InsertTenant(p) => InsertKeeps(st, p);
    case CommitCreate(p) => CommitCreateKeeps(st, p);
    case _ =>
  }

  lemma {:induction false} DropKeeps(st: State, ev: Event)
    requires Inv(st)
    ensures Inv(DropStep(st, ev))
  {
    match ev
    case AskDrop(p, id, actor) => AskDropKeeps(st, p, id, actor);
    case LockTenant(p) => LockKeeps(st, p);
    case CheckDrop(p) => CheckDropKeeps(st, p);
    case CommitDrop(p) => CommitDropKeeps(st, p);
    case Abort(p) => LeaveKeeps(st, p);
    case DeleteTombstone(id) =>
    case SetSuspended(id, suspended) => SuspendKeeps(st, id, suspended);
    case _ =>
  }

  lemma {:induction false} RunKeeps(st: State, ev: Event)
    requires Inv(st)
    ensures Inv(RunStep(st, ev))
  {
  }

  lemma {:induction false} StepKeepsInv(st: State, ev: Event)
    requires Inv(st)
    ensures Inv(Step(st, ev, true))
  {
    if OfCreate(ev) {
      CreateKeeps(st, ev);
    } else if OfRun(ev) {
      RunKeeps(st, ev);
    } else {
      DropKeeps(st, ev);
    }
  }

  lemma {:induction false} ReachKeepsInv(events: seq<Event>)
    ensures Inv(Reach(events, true))
  {
    if events != [] {
      ReachKeepsInv(events[..|events| - 1]);
      StepKeepsInv(Reach(events[..|events| - 1], true), events[|events| - 1]);
    }
  }

  // ---- The guarantees --------------------------------------------------------------------------

  /** In every state of every interleaving no id is both a live tenant and a tombstone. */
  lemma {:induction false} NeverLiveAndDropped(events: seq<Event>)
    ensures Reach(events, true).tenants.Keys !! Reach(events, true).tombstones.Keys
  {
    ReachKeepsInv(events);
  }

  lemma {:induction false} OthersBuryNothing(st: State, ev: Event)
    ensures CreateStep(st, ev, true).tombstones == st.tombstones && RunStep(st, ev).tombstones == st.tombstones
  {
  }

  /** A tombstone appears only by a drop's commit; at that moment the tenant was live, suspended, and
      no unsettled run had been found under the row lock, and the tombstone records the dropped row. */
  lemma {:induction false} DropRecordsTheRow(events: seq<Event>, ev: Event, id: Id)
    requires id !in Reach(events, true).tombstones && id in Step(Reach(events, true), ev, true).tombstones
    ensures var st, st' := Reach(events, true), Step(Reach(events, true), ev, true);
            && ev.CommitDrop? && id in st.tenants && id !in st'.tenants && st.tenants[id].suspended
            && ev.p in st.processes && st.processes[ev.p].phase == Counted(st.tenants[id])
            && st'.tombstones[id] == Tombstone(st.tenants[id].name, st.tenants[id].org, st.tenants[id].creator,
                                               st.processes[ev.p].actor)
  {
    ReachKeepsInv(events);
    OthersBuryNothing(Reach(events, true), ev);
  }

  /** A tenant leaves only by a drop's commit, which leaves its tombstone; a dropped id becomes a tenant
      again only after the tombstone was deleted. */
  lemma {:induction false} DroppedUntilDeleted(events: seq<Event>, ev: Event, id: Id)
    requires id in Reach(events, true).tombstones
    ensures var st' := Step(Reach(events, true), ev, true);
            id !in st'.tenants && (id !in st'.tombstones ==> ev == DeleteTombstone(id))
  {
    ReachKeepsInv(events);
    StepKeepsInv(Reach(events, true), ev);
  }

  // ---- Runs and the drop -----------------------------------------------------------------------

  function After(st: State, events: seq<Event>): State {
    if events == [] then st else Step(After(st, events[..|events| - 1]), events[|events| - 1], true)
  }

  ghost predicate Reached(st: State) {
    exists events :: st == Reach(events, true)
  }

  lemma {:induction false} ReachedStep(st: State, ev: Event) returns (st': State)
    requires Reached(st)
    ensures st' == Step(st, ev, true) && Reached(st')
  {
    var events :| st == Reach(events, true);
    st' := Step(st, ev, true);
    assert (events + [ev])[..|events|] == events;
    assert st' == Reach(events + [ev], true);
  }

  lemma {:induction false} ReachedInv(st: State)
    requires Reached(st)
    ensures Inv(st)
  {
    var events :| st == Reach(events, true);
    ReachKeepsInv(events);
  }

  /** No start of the id is between its reading of the flag and its insert. */
  ghost predicate NoStartInFlight(st: State, id: Id) {
    forall s :: s in st.starters ==> st.starters[s] != id
  }

  predicate HasCounted(st: State, p: nat) {
    p in st.processes && st.processes[p].phase.Counted?
  }

  /** The events do not end the drop `p`. */
  ghost predicate GoesOn(events: seq<Event>, p: nat) {
    CommitDrop(p) !in events && Abort(p) !in events
  }

  lemma {:induction false} InsertsLate(st: State, s: nat)
    requires s in st.starters
    ensures RunsOf(After(st, [InsertRun(s)]), st.starters[s]) > 0
  {
    assert [InsertRun(s)][..0] == [];
    assert After(st, [InsertRun(s)]) == Step(After(st, []), InsertRun(s), true);
  }

  /** The event brings a run of the id: an insert by a start in flight, or a run started by a run. */
  predicate Brings(st: State, ev: Event, id: Id) {
    (ev.InsertRun? && Inserts(st, ev, id)) || (ev == SpawnRun(id) && RunsOf(st, id) > 0)
  }

  predicate Inserts(st: State, ev: Event, id: Id) {
    ev.InsertRun? && ev.s in st.starters && st.starters[ev.s] == id
  }

  predicate Ends(st: State, ev: Event, id: Id) {
    ev == SettleRun(id) && RunsOf(st, id) > 0
  }

  function Brought(st: State, events: seq<Event>, id: Id): nat {
    if events == [] then 0
    else
      var n := |events| - 1;
      Brought(st, events[..n], id) + if Brings(After(st, events[..n]), events[n], id) then 1 else 0
  }

  function Ended(st: State, events: seq<Event>, id: Id): nat {
    if events == [] then 0
    else
      var n := |events| - 1;
      Ended(st, events[..n], id) + if Ends(After(st, events[..n]), events[n], id) then 1 else 0
  }

  /** Some start inserted its run on the way. */
  predicate InsertedLate(st: State, events: seq<Event>, id: Id) {
    events != [] &&
    var n := |events| - 1;
    InsertedLate(st, events[..n], id) || Inserts(After(st, events[..n]), events[n], id)
  }

  /** While a drop holds its row, no start of the id reads the flag as open. */
  ghost predicate NoNewStarts(st: State, st': State, id: Id) {
    forall s :: s in st'.starters && st'.starters[s] == id ==> s in st.starters && st.starters[s] == id
  }

  ghost predicate Tallies(st: State, ev: Event, st': State, p: nat, id: Id) {
    && HasCounted(st', p) && st'.processes[p].id == id && NoNewStarts(st, st', id)
    && RunsOf(st', id) + (if Ends(st, ev, id) then 1 else 0) == RunsOf(st, id) + (if Brings(st, ev, id) then 1 else 0)
  }

  /** Creates and other drops touch neither the drop nor the runs of its id. */
  predicate Untouched(st: State, st': State, p: nat)
    requires p in st.processes
  {
    && p in st'.processes && st'.processes[p] == st.processes[p] && st'.starters == st.starters
    && RunsOf(st', st.processes[p].id) == RunsOf(st, st.processes[p].id)
  }

  lemma {:induction false} LeaveLeaves(st: State, q: nat, p: nat)
    requires p in st.processes && q != p
    ensures Untouched(st, Leave(st, q), p)
  {
  }

  lemma {:induction false} EnterLeaves(st: State, q: nat, p: nat, phase: Phase)
    requires p in st.processes && q in st.processes && q != p
    ensures Untouched(st, Enter(st, q, phase), p) && Untouched(st, Acquire(st, q, phase), p)
  {
  }

  /** The create `q` is another process than the drop `p`. */
  lemma {:induction false} CreateLeaves(st: State, ev: Event, p: nat)
    requires HasCounted(st, p) && OfCreate(ev)
    ensures Untouched(st, CreateStep(st, ev, true), p)
  {
    var q := ev.p;
    if CreateStep(st, ev, true) != st && !ev.AskCreate? {
      assert q in st.processes && q != p;
      LeaveLeaves(st, q, p);
      match ev
      case ReadTenant(_) => EnterLeaves(st, q, p, Absent);
      case CheckTombstone(_) => EnterLeaves(st, q, p, Passed);
      case InsertTenant(_) => EnterLeaves(st, q, p, Filtered); EnterLeaves(st, q, p, Inserted);
      case CommitCreate(_) =>
    }
  }

  lemma {:induction false} OtherDrop(st: State, q: nat, p: nat)
    requires LocksValid(st) && HasCounted(st, p) && q != p
    ensures Untouched(st, CommitDropStep(st, q), p)
  {
  }

  lemma {:induction false} DropLeaves(st: State, ev: Event, p: nat)
    requires LocksValid(st) && HasCounted(st, p) && ev != CommitDrop(p) && ev != Abort(p)
    ensures Untouched(st, DropStep(st, ev), p)
  {
    if ev.CommitDrop? { OtherDrop(st, ev.p, p); }
  }

  lemma {:induction false} AddTallies(st: State, i: Id, id: Id)
    ensures RunsOf(AddRun(st, i), id) == RunsOf(st, id) + if i == id then 1 else 0
  {
  }

  lemma {:induction false} InsertTallies(st: State, s: nat, p: nat, id: Id)
    requires HasCounted(st, p) && st.processes[p].id == id
    ensures Tallies(st, InsertRun(s), InsertRunStep(st, s), p, id)
  {
    if s in st.starters { AddTallies(st, st.starters[s], id); }
  }

  lemma {:induction false} AskTallies(st: State, s: nat, i: Id, p: nat, id: Id)
    requires Closed(st, id) && HasCounted(st, p) && st.processes[p].id == id
    ensures Tallies(st, AskStart(s, i), AskStartStep(st, s, i), p, id)
  {
  }

  lemma {:induction false} SettleTallies(st: State, i: Id, p: nat, id: Id)
    requires HasCounted(st, p) && st.processes[p].id == id
    ensures Tallies(st, SettleRun(i), SettleStep(st, i), p, id)
  {
  }

  lemma {:induction false} RunTallies(st: State, ev: Event, p: nat, id: Id)
    requires Closed(st, id) && HasCounted(st, p) && st.processes[p].id == id && OfRun(ev)
    ensures Tallies(st, ev, RunStep(st, ev), p, id)
  {
    match ev
    case AskStart(s, i) => AskTallies(st, s, i, p, id);
    case InsertRun(s) => InsertTallies(st, s, p, id);
    case SpawnRun(i) => AddTallies(st, i, id);
    case SettleRun(i) => SettleTallies(st, i, p, id);
  }

  lemma {:induction false} StepTallies(st: State, ev: Event, p: nat, id: Id)
    requires Inv(st) && HasCounted(st, p) && st.processes[p].id == id && ev != CommitDrop(p) && ev != Abort(p)
    ensures Tallies(st, ev, Step(st, ev, true), p, id)
  {
    if OfCreate(ev) {
      CreateLeaves(st, ev, p);
    } else if OfRun(ev) {
      assert Closed(st, id);
      RunTallies(st, ev, p, id);
    } else {
      DropLeaves(st, ev, p);
    }
  }

  lemma {:induction false} RunsAreAccounted(st: State, events: seq<Event>, p: nat, id: Id)
    requires Inv(st) && HasCounted(st, p) && st.processes[p].id == id && GoesOn(events, p)
    ensures var st' := After(st, events);
            && Inv(st') && HasCounted(st', p) && st'.processes[p].id == id && NoNewStarts(st, st', id)
            && RunsOf(st', id) + Ended(st, events, id) == RunsOf(st, id) + Brought(st, events, id)
  {
    if events != [] {
      var n := |events| - 1;
      assert events[n] in events;
      RunsAreAccounted(st, events[..n], p, id);
      StepKeepsInv(After(st, events[..n]), events[n]);
      StepTallies(After(st, events[..n]), events[n], p, id);
    }
  }

  lemma {:induction false} InsertedWasInFlight(st: State, events: seq<Event>, p: nat, id: Id)
    requires Inv(st) && HasCounted(st, p) && st.processes[p].id == id && GoesOn(events, p)
    requires InsertedLate(st, events, id)
    ensures !NoStartInFlight(st, id)
  {
    var n := |events| - 1;
    if InsertedLate(st, events[..n], id) {
      InsertedWasInFlight(st, events[..n], p, id);
    } else {
      RunsAreAccounted(st, events[..n], p, id);
      assert events[n].s in st.starters;
    }
  }

  /** The first run after a count of zero is brought by a start. */
  lemma {:induction false} BroughtByAStart(st: State, events: seq<Event>, p: nat, id: Id)
    requires Inv(st) && HasCounted(st, p) && st.processes[p].id == id && GoesOn(events, p) && RunsOf(st, id) == 0
    ensures Brought(st, events, id) > 0 <==> InsertedLate(st, events, id)
  {
    if events != [] {
      BroughtByAStart(st, events[..|events| - 1], p, id);
      RunsAreAccounted(st, events[..|events| - 1], p, id);
    }
  }

  /** Each way a drop can go from its count to its commit: it commits with no unsettled run exactly when
      every run brought in between has also ended, and a run was brought exactly when a start inserted,
      one that was in flight at the count. */
  lemma {:induction false} CommitFindsNoRun(st: State, events: seq<Event>, p: nat)
    requires Reached(st) && p in st.processes && st.processes[p].phase.Locked? && HasCounted(CheckDropStep(st, p), p)
    requires GoesOn(events, p)
    ensures var id, counted := st.processes[p].id, CheckDropStep(st, p);
            && (RunsOf(After(counted, events), id) == 0 <==> Brought(counted, events, id) == Ended(counted, events, id))
            && (Brought(counted, events, id) > 0 <==> InsertedLate(counted, events, id))
            && (InsertedLate(counted, events, id) ==> !NoStartInFlight(st, id))
  {
    var id, counted := st.processes[p].id, CheckDropStep(st, p);
    ReachedInv(st);
    CheckDropKeeps(st, p);
    RunsAreAccounted(counted, events, p, id);
    BroughtByAStart(counted, events, p, id);
    if InsertedLate(counted, events, id) { InsertedWasInFlight(counted, events, p, id); }
  }

  /** The exact condition for a drop that leaves no unsettled run behind. Over all interleavings: the
      tenant has none at the commit, however the drop goes on from its count, if and only if at the
      count no start was in flight, that is, none had read the flag before the suspension and still to
      insert its run. */
  lemma {:induction false} DropFindsNoRun(st: State, p: nat)
    requires Reached(st) && p in st.processes && st.processes[p].phase.Locked? && HasCounted(CheckDropStep(st, p), p)
    ensures var id, counted := st.processes[p].id, CheckDropStep(st, p);
            (forall events :: GoesOn(events, p) ==> RunsOf(After(counted, events), id) == 0)
            <==> NoStartInFlight(st, id)
  {
    var id, counted := st.processes[p].id, CheckDropStep(st, p);
    ReachedInv(st);
    CheckDropKeeps(st, p);
    if NoStartInFlight(st, id) {
      forall events | GoesOn(events, p) ensures RunsOf(After(counted, events), id) == 0 {
        CommitFindsNoRun(st, events, p);
        RunsAreAccounted(counted, events, p, id);
      }
    } else {
      var s :| s in st.starters && st.starters[s] == id;
      InsertsLate(counted, s);
      assert GoesOn([InsertRun(s)], p);
    }
  }

  /** The same after the commit: a dropped id stays without runs, until its tombstone is deleted, if
      and only if no start was in flight at the commit. */
  lemma {:induction false} DroppedIdHasNoRun(st: State, p: nat)
    requires Reached(st) && HasCounted(st, p)
    ensures var id, dropped := st.processes[p].id, CommitDropStep(st, p);
            (forall events :: DeleteTombstone(id) !in events ==> RunsOf(After(dropped, events), id) == 0)
            <==> NoStartInFlight(st, id)
  {
    var id, dropped := st.processes[p].id, CommitDropStep(st, p);
    ReachedInv(st);
    CommitDropKeeps(st, p);
    if NoStartInFlight(st, id) {
      forall events | DeleteTombstone(id) !in events ensures RunsOf(After(dropped, events), id) == 0 {
        StaysEmpty(dropped, events, id);
      }
    } else {
      var s :| s in st.starters && st.starters[s] == id;
      InsertsLate(dropped, s);
      assert DeleteTombstone(id) !in [InsertRun(s)];
    }
  }

  ghost predicate Empty(st: State, id: Id) {
    id in st.tombstones && RunsOf(st, id) == 0 && NoStartInFlight(st, id)
  }

  lemma {:induction false} CreateStaysEmpty(st: State, ev: Event, id: Id)
    requires Empty(st, id)
    ensures Empty(CreateStep(st, ev, true), id)
  {
  }

  lemma {:induction false} DropStaysEmpty(st: State, ev: Event, id: Id)
    requires Empty(st, id) && ev != DeleteTombstone(id)
    ensures Empty(DropStep(st, ev), id)
  {
  }

  lemma {:induction false} RunStaysEmpty(st: State, ev: Event, id: Id)
    requires Empty(st, id)
    ensures Empty(RunStep(st, ev), id)
  {
  }

  lemma {:induction false} StaysEmpty(st: State, events: seq<Event>, id: Id)
    requires Empty(st, id) && DeleteTombstone(id) !in events
    ensures Empty(After(st, events), id)
  {
    if events != [] {
      var n := |events| - 1;
      assert events[n] in events;
      StaysEmpty(st, events[..n], id);
      CreateStaysEmpty(After(st, events[..n]), events[n], id);
      DropStaysEmpty(After(st, events[..n]), events[n], id);
      RunStaysEmpty(After(st, events[..n]), events[n], id);
    }
  }

  /** The window is real: a start that read the flag before the suspension inserts its run after the
      count, and the drop deletes a run that has not ended. */
  lemma {:induction false} DropDeletesAnUnsettledRun() returns (st: State)
    ensures Reached(st) && HasCounted(st, 2) && st.processes[2].id == "i" && RunsOf(st, "i") == 1
    ensures RunsOf(CommitDropStep(st, 2), "i") == 0 && "i" in CommitDropStep(st, 2).tombstones
  {
    st := CreateOne();
    st := ReachedStep(st, AskStart(7, "i"));
    st := SuspendAndCount(st);
    st := InsertRunOf(st, 7);
    CommitDeletes(st, 2);
  }

  lemma {:induction false} InsertRunOf(st0: State, s: nat) returns (st: State)
    requires Reached(st0) && s in st0.starters
    ensures Reached(st) && RunsOf(st, st0.starters[s]) == RunsOf(st0, st0.starters[s]) + 1
    ensures st.processes == st0.processes && st.tombstones == st0.tombstones
  {
    st := ReachedStep(st0, InsertRun(s));
  }

  lemma {:induction false} CommitDeletes(st: State, p: nat)
    requires HasCounted(st, p) && st.processes[p].id !in st.tombstones
    ensures RunsOf(CommitDropStep(st, p), st.processes[p].id) == 0
    ensures st.processes[p].id in CommitDropStep(st, p).tombstones
  {
  }

  lemma {:induction false} CreateOne() returns (st: State)
    ensures Reached(st) && st == EMPTY.(tenants := map["i" := Tenant("n", "o", "c", false)])
  {
    st := InsertOne();
    st := ReachedStep(st, CheckTombstone(1));
    assert In(st, 1, Passed);
    st := ReachedStep(st, CommitCreate(1));
  }

  lemma {:induction false} InsertOne() returns (st: State)
    ensures Reached(st)
    ensures st == EMPTY.(processes := map[1 := Process("i", Tenant("n", "o", "c", false), "", Inserted)],
                         locks := map["i" := 1])
  {
    assert EMPTY == Reach([], true);
    st := ReachedStep(EMPTY, AskCreate(1, "i", Tenant("n", "o", "c", false)));
    assert In(st, 1, Filtered);
    st := ReachedStep(st, ReadTenant(1));
    assert In(st, 1, Absent);
    st := ReachedStep(st, InsertTenant(1));
  }

  lemma {:induction false} SuspendAndCount(st0: State) returns (st: State)
    requires Reached(st0) && "i" in st0.tenants && st0.locks == map[] && st0.processes == map[] && st0.runs == map[]
    requires st0.tombstones == map[]
    ensures Reached(st) && HasCounted(st, 2) && st.processes[2].id == "i" && st.runs == map[]
    ensures st.starters == st0.starters && st.tombstones == map[]
  {
    st := SuspendThenAsk(st0);
    st := ReachedStep(st, LockTenant(2));
    assert 2 in st.processes && st.processes[2].phase == Locked(st0.tenants["i"].(suspended := true));
    st := ReachedStep(st, CheckDrop(2));
  }

  lemma {:induction false} SuspendThenAsk(st0: State) returns (st: State)
    requires Reached(st0) && "i" in st0.tenants && st0.locks == map[] && st0.processes == map[]
    ensures Reached(st) && In(st, 2, Asked) && st.processes[2].id == "i"
    ensures "i" in st.tenants && st.tenants["i"] == st0.tenants["i"].(suspended := true)
    ensures st.locks == map[] && st.runs == st0.runs && st.starters == st0.starters && st.tombstones == st0.tombstones
  {
    st := ReachedStep(st0, SetSuspended("i", true));
    st := ReachedStep(st, AskDrop(2, "i", "op"));
  }

  // ---- The other order -------------------------------------------------------------------------

  ghost predicate ReachedEarly(st: State) {
    exists events :: st == Reach(events, false)
  }

  lemma {:induction false} EarlyStep(st: State, ev: Event) returns (st': State)
    requires ReachedEarly(st)
    ensures st' == Step(st, ev, false) && ReachedEarly(st')
  {
    var events :| st == Reach(events, false);
    st' := Step(st, ev, false);
    assert (events + [ev])[..|events|] == events;
    assert st' == Reach(events + [ev], false);
  }

  /** A create that has looked for a tombstone and found none, and does not hold the row yet. */
  predicate Waits(st: State, p: nat) {
    p in st.processes && st.processes[p] == Process("i", Tenant("n", "o", "c", false), "", Cleared)
  }

  lemma {:induction false} AskAndClear(st0: State, p: nat) returns (st: State)
    requires ReachedEarly(st0) && st0.tombstones == map[] && st0.tenants == map[] && st0.locks == map[] && p !in st0.processes
    ensures ReachedEarly(st) && st.tombstones == map[] && st.tenants == map[] && st.locks == map[]
    ensures st.runs == st0.runs
    ensures st.processes == st0.processes[p := Process("i", Tenant("n", "o", "c", false), "", Cleared)]
  {
    st := EarlyStep(st0, AskCreate(p, "i", Tenant("n", "o", "c", false)));
    assert In(st, p, Filtered);
    st := EarlyStep(st, ReadTenant(p));
    assert In(st, p, Absent);
    st := EarlyStep(st, CheckTombstone(p));
  }

  lemma {:induction false} InsertAndCommit(st0: State, p: nat) returns (st: State)
    requires ReachedEarly(st0) && Waits(st0, p) && "i" !in st0.tenants && st0.locks == map[]
    ensures ReachedEarly(st) && st.tombstones == st0.tombstones && st.locks == map[] && st.processes == st0.processes - {p}
    ensures st.tenants == st0.tenants["i" := Tenant("n", "o", "c", false)] && st.runs == st0.runs
  {
    st := EarlyStep(st0, InsertTenant(p));
    st := EarlyStep(st, CommitCreate(p));
  }

  lemma {:induction false} SuspendAndLock(st0: State) returns (st: State)
    requires ReachedEarly(st0) && "i" in st0.tenants && st0.locks == map[] && 3 !in st0.processes && Waits(st0, 1)
    requires st0.runs == map[]
    ensures ReachedEarly(st) && st.tombstones == st0.tombstones && st.locks == map["i" := 3] && Waits(st, 1)
    ensures 3 in st.processes && st.processes[3].id == "i" && st.processes[3].phase.Locked?
    ensures st.processes[3].phase.row.suspended && st.runs == map[]
  {
    st := EarlyStep(st0, SetSuspended("i", true));
    st := EarlyStep(st, AskDrop(3, "i", "op"));
    st := EarlyStep(st, LockTenant(3));
  }

  lemma {:induction false} CountAndDrop(st0: State) returns (st: State)
    requires ReachedEarly(st0) && st0.tombstones == map[] && st0.locks == map["i" := 3] && Waits(st0, 1)
    requires 3 in st0.processes && st0.processes[3].id == "i" && st0.processes[3].phase.Locked?
    requires st0.processes[3].phase.row.suspended && st0.runs == map[]
    ensures ReachedEarly(st) && "i" in st.tombstones && "i" !in st.tenants && st.locks == map[] && Waits(st, 1)
  {
    st := EarlyStep(st0, CheckDrop(3));
    st := EarlyStep(st, CommitDrop(3));
  }

  /** Looking for the tombstone before the insert would not do: a create that looked before another
      create and its drop leaves the id both live and dropped. */
  lemma {:induction false} EarlyCheckIsNotEnough() returns (st: State)
    ensures ReachedEarly(st) && "i" in st.tenants && "i" in st.tombstones
  {
    st := EMPTY;
    assert st == Reach([], false);
    st := AskAndClear(st, 1);
    st := AskAndClear(st, 2);
    st := InsertAndCommit(st, 2);
    st := SuspendAndLock(st);
    st := CountAndDrop(st);
    st := InsertAndCommit(st, 1);
  }
}
