/**
 Write-ahead call intent for one workflow instance, as a machine over its atomic store statements
 and external sends. Any number of executions may be alive at once: a worker that lost its lease
 goes on until it is stopped by the fence. An event whose guard fails is the code's error path
 and changes nothing but the acting execution.
 */
module CallIntent {
  import IdempotencyKey

  /** `Audit` is the admin_action record an operator's action leaves in the history. */
  datatype Row = Pending | Complete(answer: string) | Audit

  datatype Status = Ready | Running | Done | Failed | Terminated | DeadLettered

  /** Where an execution is: loading its history, at a step, between the intent and the send,
      between the send and the outcome, or holding a resolution it has not persisted. */
  datatype Phase =
    | Loading
    | At(step: nat)
    | Intended(step: nat)
    | Sent(step: nat, answer: string)
    | Resolving(step: nat, answer: string)

  /** One execution, named by the lease generation it claimed. */
  datatype Execution = Execution(snapshot: map<nat, Row>, phase: Phase, epoch: nat)

  datatype Identity = Identity(workflow: string, run: string)

  /** One request the service saw. The epoch is 1 once a re-replay has resumed an emptied history. */
  datatype Send = Send(step: nat, epoch: nat, first: bool, key: string)

  /** One call of the run: its step, in the epoch it was made in. */
  datatype Site = Site(step: nat, epoch: nat)

  /** A recorded answer handed to the guest. */
  datatype Delivery = Delivery(step: nat, epoch: nat, answer: string)

  /** The pending step an operator found in the history, and the step for the audit record. */
  datatype Resolution = Resolution(step: nat, audit: nat)

  /** What the operators and the sweep did, in order: a re-replay check that passed, the sweep, and
      a re-replay, with whether the history was empty then. */
  datatype Mark = Approved(generation: nat) | Swept | Resumed(generation: nat, emptied: bool)

  datatype State = State(
    id: Identity,
    rows: map<nat, Row>,
    status: Status,
    generation: nat,
    executions: map<nat, Execution>,
    swept: bool,
    approvals: set<nat>,
    found: set<Resolution>,
    audits: set<nat>,
    sends: seq<Send>,
    deliveries: seq<Delivery>,
    epoch: nat,
    dormant: bool,
    written: set<Site>,
    settled: map<Site, string>,
    log: seq<Mark>)

  function Initial(id: Identity): State {
    State(id, map[], Ready, 0, map[], false, {}, {}, {}, [], [], 0, false, {}, map[], [])
  }

  datatype Event =
    | Claim
    | Load(g: nat)
    | Replay(g: nat)
    | Diverge(g: nat)
    | Resend(g: nat)
    | Resolve(g: nat, answer: string)
    | Persist(g: nat)
    | ReportAmbiguous(g: nat)
    | WriteIntent(g: nat)
    | Dispatch(g: nat, answer: string)
    | CompleteIntent(g: nat)
    | Crash(g: nat)
    | Finish(g: nat, outcome: Status)
    | Force(outcome: Status)
    | OperatorLoad(step: nat)
    | OperatorResolve(resolution: Resolution, answer: string)
    | OperatorAudit(audit: nat)
    | CheckReReplay(generation: nat)
    | ActReReplay(generation: nat)
    | RetryDeadLettered
    | Sweep

  // ---- The steps -----------------------------------------------------------------------------

  /** The lease still names this execution: same worker, same generation. */
  predicate Fenced(st: State, g: nat) {
    st.status == Running && st.generation == g
  }

  function Move(st: State, g: nat, phase: Phase): State
    requires g in st.executions
  {
    st.(executions := st.executions[g := st.executions[g].(phase := phase)])
  }

  /** A request for the call at this step. The key is that of the step, whoever sends it. */
  function Request(id: Identity, step: nat, epoch: nat, first: bool): Send {
    Send(step, epoch, first, IdempotencyKey.Material(id.workflow, id.run, step))
  }

  /** The pending row becomes the given answer, and the guest gets it. */
  function Record(st: State, g: nat, step: nat, answer: string): State
    requires g in st.executions
  {
    var e := st.executions[g];
    Move(st, g, At(step + 1)).(
      rows := st.rows[step := Complete(answer)],
      settled := st.settled[Site(step, st.epoch) := answer],
      deliveries := st.deliveries + [Delivery(step, e.epoch, answer)])
  }

  predicate PendingRow(rows: map<nat, Row>, step: nat) {
    step in rows && rows[step] == Pending
  }

  predicate NoPending(rows: map<nat, Row>) {
    forall k: nat :: k in rows ==> rows[k] != Pending
  }

  predicate Terminal(status: Status) {
    status != Ready && status != Running
  }

  lemma {:induction false} HasGreatest(steps: set<nat>) returns (k: nat)
    requires steps != {}
    ensures k in steps && forall j :: j in steps ==> j <= k
  {
    var n :| n in steps;
    var rest := steps - {n};
    k := n;
    if rest != {} {
      var m := HasGreatest(rest);
      k := if m > n then m else n;
    }
    assert forall j :: j in steps ==> j == n || j in rest;
  }

  lemma {:induction false} SomeGreatest(steps: set<nat>)
    requires steps != {}
    ensures exists k :: k in steps && forall j :: j in steps ==> j <= k
  {
    var k := HasGreatest(steps);
  }

  /** The step after the last recorded one, where an audit record goes. */
  function NextStep(rows: map<nat, Row>): (n: nat)
    ensures n !in rows && (rows == map[] <==> n == 0)
    ensures forall k :: k in rows ==> k < n
  {
    if rows == map[] then 0
    else
      assert rows.Keys != {};
      SomeGreatest(rows.Keys);
      var k :| k in rows.Keys && forall j :: j in rows.Keys ==> j <= k;
      k + 1
  }

  function WithAudit(rows: map<nat, Row>): map<nat, Row> {
    rows[NextStep(rows) := Audit]
  }

  /** No record is missing below another, which replay insists on. */
  predicate Dense(rows: map<nat, Row>) {
    forall j: nat, k: nat :: j < k && k in rows ==> j in rows
  }

  function Step(st: State, ev: Event): State {
    if OfCall(ev) then CallStep(st, ev)
    else if OfResolution(ev) then ResolutionStep(st, ev)
    else if OfOperator(ev) then OperatorStep(st, ev)
    else if OfLifecycle(ev) then LifecycleStep(st, ev)
    else SegmentStep(st, ev)
  }

  predicate OfCall(ev: Event) {
    ev.WriteIntent? || ev.Dispatch? || ev.CompleteIntent?
  }

  predicate OfResolution(ev: Event) {
    ev.Resend? || ev.Resolve? || ev.Persist? || ev.ReportAmbiguous?
  }

  predicate OfOperator(ev: Event) {
    ev.OperatorLoad? || ev.OperatorResolve? || ev.OperatorAudit? || ev.Force?
  }

  predicate OfLifecycle(ev: Event) {
    ev.CheckReReplay? || ev.ActReReplay? || ev.RetryDeadLettered? || ev.Sweep?
  }

  /** The events of a segment: claiming the run, replaying its history, ending. */
  function SegmentStep(st: State, ev: Event): State {
    match ev
    case Claim => ClaimStep(st)
    case Load(g) => LoadStep(st, g)
    case Replay(g) => ReplayStep(st, g)
    case Diverge(g) => DivergeStep(st, g)
    case Crash(g) => CrashStep(st, g)
    case Finish(g, outcome) => FinishStep(st, g, outcome)
    case _ => st
  }

  /** The events of a fresh call. */
  function CallStep(st: State, ev: Event): State {
    match ev
    case WriteIntent(g) => WriteIntentStep(st, g)
    case Dispatch(g, answer) => DispatchStep(st, g, answer)
    case CompleteIntent(g) => CompleteStep(st, g)
    case _ => st
  }

  /** The events of a worker that finds a pending call. */
  function ResolutionStep(st: State, ev: Event): State {
    match ev
    case Resend(g) => ResendStep(st, g)
    case Resolve(g, answer) => ResolveStep(st, g, answer)
    case Persist(g) => PersistStep(st, g)
    case ReportAmbiguous(g) => AmbiguousStep(st, g)
    case _ => st
  }

  /** The events of an operator who settles a call or ends the run. */
  function OperatorStep(st: State, ev: Event): State {
    match ev
    case OperatorLoad(step) => OperatorLoadStep(st, step)
    case OperatorResolve(r, answer) => OperatorResolveStep(st, r, answer)
    case OperatorAudit(audit) => OperatorAuditStep(st, audit)
    case Force(outcome) => ForceStep(st, outcome)
    case _ => st
  }

  /** The events that reopen a run, and the sweep. */
  function LifecycleStep(st: State, ev: Event): State {
    match ev
    case CheckReReplay(generation) => CheckStep(st, generation)
    case ActReReplay(generation) => ActStep(st, generation)
    case RetryDeadLettered => RetryStep(st)
    case Sweep => SweepStep(st)
    case _ => st
  }

  /** A worker claims a ready run, or one whose lease has lapsed. */
  function ClaimStep(st: State): State {
    if Terminal(st.status) then st
    else st.(status := Running, generation := st.generation + 1,
             executions := st.executions[st.generation + 1 := Execution(map[], Loading, 0)])
  }

  /** A history with a gap is refused before the guest runs. */
  function LoadStep(st: State, g: nat): State {
    if g in st.executions && st.executions[g].phase.Loading? && Dense(st.rows) then
      st.(executions := st.executions[g := Execution(st.rows, At(0), st.epoch)])
    else st
  }

  /** A lookup, or a resend, has answered for the pending call. */
  function ResolveStep(st: State, g: nat, answer: string): State {
    if AtPending(st, g) then Move(st, g, Resolving(st.executions[g].phase.step, answer)) else st
  }

  function AmbiguousStep(st: State, g: nat): State {
    if AtPending(st, g) then Move(st, g, At(st.executions[g].phase.step + 1)) else st
  }

  function CrashStep(st: State, g: nat): State {
    st.(executions := st.executions - {g})
  }

  /** The end of a segment, under the fence: suspended back to ready, or stopped. A run that is done
      loses its history with the same statement. */
  function FinishStep(st: State, g: nat, outcome: Status): State {
    if g in st.executions && Fenced(st, g) && outcome != Running then
      var st' := CrashStep(st, g).(status := outcome);
      if outcome == Done then st'.(rows := map[], dormant := true) else st'
    else st
  }

  /** An operator ends a run that is not finished; the lease and an audit record go with it. */
  function ForceStep(st: State, outcome: Status): State {
    if Terminal(st.status) || (outcome != Done && outcome != Failed) then st
    else st.(status := outcome, generation := st.generation + 1, rows := WithAudit(st.rows))
  }

  /** An operator reads the history and finds the pending step, and the step after the last. */
  function OperatorLoadStep(st: State, step: nat): State {
    if PendingRow(st.rows, step) then st.(found := st.found + {Resolution(step, NextStep(st.rows))}) else st
  }

  /** The operator's answer is not fenced; the row must still be pending. */
  function OperatorResolveStep(st: State, r: Resolution, answer: string): State {
    if r in st.found && PendingRow(st.rows, r.step) then
      Settle(st, r.step, answer).(audits := st.audits + {r.audit})
    else st
  }

  function Settle(st: State, step: nat, answer: string): State {
    st.(rows := st.rows[step := Complete(answer)], settled := st.settled[Site(step, st.epoch) := answer])
  }

  /** The audit record is appended in a statement of its own; a row already at its step stays. */
  function OperatorAuditStep(st: State, audit: nat): State {
    if audit in st.audits && audit !in st.rows then st.(rows := st.rows[audit := Audit]) else st
  }

  predicate Approves(st: State) {
    NoPending(st.rows) && !(st.rows == map[] && st.swept)
  }

  /** The first half of a re-replay: no call pending, and not an emptied history. */
  function CheckStep(st: State, generation: nat): State {
    if Approves(st) then st.(approvals := st.approvals + {generation}, log := st.log + [Approved(generation)]) else st
  }

  function RetryStep(st: State): State {
    if st.status == DeadLettered && NoPending(st.rows) then st.(status := Ready) else st
  }

  /** The retention sweep removes the whole history of a finished run, once. */
  function SweepStep(st: State): State {
    if (st.status == Done || st.status == Failed) && st.rows != map[] && !st.swept then
      st.(rows := map[], swept := true, dormant := true, log := st.log + [Swept])
    else st
  }

  /** At a step its snapshot holds as complete: the recorded answer is handed out. */
  function ReplayStep(st: State, g: nat): State {
    if g in st.executions && st.executions[g].phase.At? then
      var e := st.executions[g];
      var k := e.phase.step;
      if k in e.snapshot && e.snapshot[k].Complete? then
        Move(st, g, At(k + 1)).(deliveries := st.deliveries + [Delivery(k, e.epoch, e.snapshot[k].answer)])
      else st
    else st
  }

  /** At a step its snapshot holds as an audit record: the call is told it diverged, and the record
      is consumed. */
  function DivergeStep(st: State, g: nat): State {
    if g in st.executions && st.executions[g].phase.At? then
      var e := st.executions[g];
      var k := e.phase.step;
      if k in e.snapshot && e.snapshot[k] == Audit then Move(st, g, At(k + 1)) else st
    else st
  }

  /** At a step its snapshot holds as pending. */
  predicate AtPending(st: State, g: nat) {
    && g in st.executions && st.executions[g].phase.At?
    && PendingRow(st.executions[g].snapshot, st.executions[g].phase.step)
  }

  /** The pending call is sent again under its original key. */
  function ResendStep(st: State, g: nat): State {
    if AtPending(st, g) then
      st.(sends := st.sends + [Request(st.id, st.executions[g].phase.step, st.executions[g].epoch, false)])
    else st
  }

  /** A resolution is used only if it was recorded; otherwise the ambiguity is reported. */
  function PersistStep(st: State, g: nat): State {
    if g in st.executions && st.executions[g].phase.Resolving? then
      var k := st.executions[g].phase.step;
      if Fenced(st, g) && PendingRow(st.rows, k) then Record(st, g, k, st.executions[g].phase.answer)
      else Move(st, g, At(k + 1))
    else st
  }

  /** The intent is inserted under the fence, once per step: the key is the primary key. */
  function WriteIntentStep(st: State, g: nat): State {
    if g in st.executions && st.executions[g].phase.At? then
      var k := st.executions[g].phase.step;
      if k !in st.executions[g].snapshot && Fenced(st, g) && k !in st.rows then
        Move(st, g, Intended(k)).(rows := st.rows[k := Pending], written := st.written + {Site(k, st.epoch)})
      else st
    else st
  }

  function DispatchStep(st: State, g: nat, answer: string): State {
    if g in st.executions && st.executions[g].phase.Intended? then
      var k := st.executions[g].phase.step;
      Move(st, g, Sent(k, answer)).(sends := st.sends + [Request(st.id, k, st.executions[g].epoch, true)])
    else st
  }

  /** The outcome is written under the fence over a row that is still pending. */
  function CompleteStep(st: State, g: nat): State {
    if g in st.executions && st.executions[g].phase.Sent? then
      var k := st.executions[g].phase.step;
      if Fenced(st, g) && PendingRow(st.rows, k) then Record(st, g, k, st.executions[g].phase.answer)
      else Move(st, g, At(k))
    else st
  }

  predicate Acts(st: State, generation: nat) {
    && generation in st.approvals && st.generation == generation
    && (st.status == Failed || st.status == Terminated || st.status == DeadLettered)
  }

  /** The second half of a re-replay: it acts on the approval, not on the history, and leaves an
      audit record in the same transaction. */
  function ActStep(st: State, generation: nat): State {
    if Acts(st, generation) then
      var resumes := st.dormant && st.rows == map[];
      st.(status := Ready, generation := st.generation + 1, rows := WithAudit(st.rows),
          dormant := st.dormant && !resumes, epoch := if resumes then st.epoch + 1 else st.epoch,
          log := st.log + [Resumed(generation, st.rows == map[])])
    else st
  }

  function Reach(st: State, events: seq<Event>): State {
    if events == [] then st else Step(Reach(st, events[..|events| - 1]), events[|events| - 1])
  }

  // ---- What every state keeps ------------------------------------------------------------------

  /** Call rows belong to the current epoch, were written ahead, and hold what was settled. */
  ghost predicate RowsValid(rows: map<nat, Row>, epoch: nat, written: set<Site>, settled: map<Site, string>) {
    && (forall k: nat :: k in rows ==> rows[k] == Audit || Site(k, epoch) in written)
    && (forall w :: w in written ==> w.epoch <= epoch)
    && (forall k: nat :: k in rows && rows[k].Complete? ==>
          Site(k, epoch) in settled && settled[Site(k, epoch)] == rows[k].answer)
    && (forall k: nat :: PendingRow(rows, k) ==> Site(k, epoch) !in settled)
    && (forall w :: w in settled ==> w in written)
  }

  /** Everything written in this epoch is still there, unless the history is gone. */
  ghost predicate RowsKept(rows: map<nat, Row>, epoch: nat, written: set<Site>, dormant: bool) {
    forall k: nat :: Site(k, epoch) in written ==> dormant || (k in rows && rows[k] != Audit)
  }

  predicate AllAudits(rows: map<nat, Row>) {
    forall k: nat :: k in rows ==> rows[k] == Audit && k > 0
  }

  /** A history that is gone holds no call, only audit records that came late, none of them at step
      0. It was purged with a run that is done, or swept and not resumed. A resumed run keeps an
      audit record at step 0. */
  predicate Dormancy(st: State) {
    && (st.dormant ==> AllAudits(st.rows) && (st.status == Done || (st.swept && st.epoch == 0)))
    && (st.dormant && st.rows == map[] ==> st.status == Done || st.status == Failed)
    && (st.swept && st.epoch == 0 ==> st.dormant)
    && (st.epoch > 0 ==> st.epoch == 1 && st.swept && Site(0, 1) !in st.written && Resumable(st))
  }

  predicate Resumable(st: State) {
    st.status == Done || (0 in st.rows && st.rows[0] == Audit)
  }

  /** Audit records of resolutions go after some recorded step. */
  predicate AuditsValid(found: set<Resolution>, audits: set<nat>) {
    (forall r :: r in found ==> r.audit > 0) && (forall a :: a in audits ==> a > 0)
  }

  /** An execution's snapshot is of its epoch, and the lease holder is of the current epoch. Over a
      history that is gone the holder has not got past loading. */
  ghost predicate ExecutionValid(e: Execution, holder: bool, epoch: nat, dormant: bool, written: set<Site>,
                                 settled: map<Site, string>, sends: seq<Send>, id: Identity)
  {
    && (e.phase.Loading? ==> e.snapshot == map[])
    && (!e.phase.Loading? ==> e.epoch <= epoch && (holder ==> e.epoch == epoch && !dormant))
    && (forall k: nat :: k in e.snapshot ==> e.snapshot[k] == Audit || Site(k, e.epoch) in written)
    && (forall k: nat :: k in e.snapshot && e.snapshot[k].Complete? ==>
          Site(k, e.epoch) in settled && settled[Site(k, e.epoch)] == e.snapshot[k].answer)
    && (e.phase.Intended? ==>
          Site(e.phase.step, e.epoch) in written && Request(id, e.phase.step, e.epoch, true) !in sends)
  }

  predicate SameIntent(e: Execution, f: Execution) {
    e.phase.Intended? && f.phase == e.phase && f.epoch == e.epoch
  }

  /** No two executions are between the intent and the send of the same call. */
  ghost predicate IntentsExclusive(executions: map<nat, Execution>) {
    forall g, h :: g in executions && h in executions && g != h ==> !SameIntent(executions[g], executions[h])
  }

  ghost predicate ExecutionsValid(st: State) {
    && (forall g :: g in st.executions ==>
          && 0 < g <= st.generation
          && ExecutionValid(st.executions[g], Fenced(st, g), st.epoch, st.dormant, st.written, st.settled, st.sends, st.id))
    && IntentsExclusive(st.executions)
  }

  /** Every send was written ahead and carries the key of its step, and a call is freshly dispatched
      once per epoch. */
  ghost predicate SendsValid(sends: seq<Send>, written: set<Site>, id: Identity) {
    && (forall i :: 0 <= i < |sends| ==>
          && Site(sends[i].step, sends[i].epoch) in written
          && sends[i] == Request(id, sends[i].step, sends[i].epoch, sends[i].first))
    && (forall i, j :: 0 <= i < j < |sends| && sends[i].first && sends[j].first ==> sends[i] != sends[j])
  }

  ghost predicate DeliveriesValid(deliveries: seq<Delivery>, settled: map<Site, string>) {
    forall i :: 0 <= i < |deliveries| ==>
      var d := deliveries[i]; Site(d.step, d.epoch) in settled && settled[Site(d.step, d.epoch)] == d.answer
  }

  ghost predicate Inv(st: State) {
    && RowsValid(st.rows, st.epoch, st.written, st.settled)
    && RowsKept(st.rows, st.epoch, st.written, st.dormant)
    && Dormancy(st)
    && AuditsValid(st.found, st.audits)
    && ExecutionsValid(st)
    && SendsValid(st.sends, st.written, st.id)
    && DeliveriesValid(st.deliveries, st.settled)
  }

  /** The states some sequence of events leads to. */
  ghost predicate Reached(st: State) {
    exists events :: st == Reach(Initial(st.id), events)
  }

  lemma {:induction false} StepKeepsId(st: State, ev: Event)
    ensures Step(st, ev).id == st.id
  {
  }

  lemma {:induction false} ReachKeepsInv(id: Identity, events: seq<Event>)
    ensures Inv(Reach(Initial(id), events)) && Reach(Initial(id), events).id == id
  {
    if events != [] {
      var n := |events| - 1;
      ReachKeepsInv(id, events[..n]);
      StepKeepsId(Reach(Initial(id), events[..n]), events[n]);
      StepKeepsInv(Reach(Initial(id), events[..n]), events[n]);
    }
  }

  lemma {:induction false} ReachedInv(st: State)
    requires Reached(st)
    ensures Inv(st)
  {
    var events :| st == Reach(Initial(st.id), events);
    ReachKeepsInv(st.id, events);
  }

  lemma {:induction false} ReachedStep(st: State, ev: Event) returns (st': State)
    requires Reached(st)
    ensures st' == Step(st, ev) && Reached(st') && st'.id == st.id
  {
    var events :| st == Reach(Initial(st.id), events);
    st' := Step(st, ev);
    StepKeepsId(st, ev);
    assert (events + [ev])[..|events|] == events;
    assert st' == Reach(Initial(st.id), events + [ev]);
  }

  lemma {:induction false} StepKeepsInv(st: State, ev: Event)
    requires Inv(st)
    ensures Inv(Step(st, ev))
  {
    if OfCall(ev) {
      CallKeeps(st, ev);
    } else if OfResolution(ev) {
      ResolutionKeeps(st, ev);
    } else if OfOperator(ev) {
      OperatorKeeps(st, ev);
    } else if OfLifecycle(ev) {
      LifecycleKeeps(st, ev);
    } else {
      SegmentKeeps(st, ev);
    }
  }

  lemma {:induction false} SegmentKeeps(st: State, ev: Event)
    requires Inv(st)
    ensures Inv(SegmentStep(st, ev))
  {
    match ev
    case Claim => ClaimKeeps(st);
    case Load(g) => LoadKeeps(st, g);
    case Replay(g) => ReplayKeeps(st, g);
    case Diverge(g) => DivergeKeeps(st, g);
    case Crash(g) => CrashKeeps(st, g);
    case Finish(g, outcome) => FinishKeeps(st, g, outcome);
    case _ =>
  }

  lemma {:induction false} CallKeeps(st: State, ev: Event)
    requires Inv(st)
    ensures Inv(CallStep(st, ev))
  {
    match ev
    case WriteIntent(g) => WriteIntentKeeps(st, g);
    case Dispatch(g, answer) => DispatchKeeps(st, g, answer);
    case CompleteIntent(g) => CompleteKeeps(st, g);
    case _ =>
  }

  lemma {:induction false} ResolutionKeeps(st: State, ev: Event)
    requires Inv(st)
    ensures Inv(ResolutionStep(st, ev))
  {
    match ev
    case Resend(g) => ResendKeeps(st, g);
    case Resolve(g, answer) => ResolveKeeps(st, g, answer);
    case Persist(g) => PersistKeeps(st, g);
    case ReportAmbiguous(g) => AmbiguousKeeps(st, g);
    case _ =>
  }

  lemma {:induction false} OperatorKeeps(st: State, ev: Event)
    requires Inv(st)
    ensures Inv(OperatorStep(st, ev))
  {
    match ev
    case OperatorLoad(step) => OperatorLoadKeeps(st, step);
    case OperatorResolve(r, answer) => OperatorResolveKeeps(st, r, answer);
    case OperatorAudit(audit) => OperatorAuditKeeps(st, audit);
    case Force(outcome) => ForceKeeps(st, outcome);
    case _ =>
  }

  lemma {:induction false} LifecycleKeeps(st: State, ev: Event)
    requires Inv(st)
    ensures Inv(LifecycleStep(st, ev))
  {
    match ev
    case CheckReReplay(generation) => CheckKeeps(st, generation);
    case ActReReplay(generation) => ActKeeps(st, generation);
    case RetryDeadLettered => RetryKeeps(st);
    case Sweep => SweepKeeps(st);
    case _ =>
  }

  lemma {:induction false} ExclusiveUpdate(executions: map<nat, Execution>, g: nat, e: Execution)
    requires IntentsExclusive(executions) && !e.phase.Intended?
    ensures IntentsExclusive(executions[g := e])
  {
  }

  lemma {:induction false} LosesLease(e: Execution, holder: bool, epoch: nat, dormant: bool, written: set<Site>,
                                      settled: map<Site, string>, sends: seq<Send>, id: Identity)
    requires ExecutionValid(e, holder, epoch, dormant, written, settled, sends, id)
    ensures forall n, d :: n >= epoch ==> ExecutionValid(e, false, n, d, written, settled, sends, id)
  {
  }

  lemma {:induction false} ClaimKeepsExecutions(st: State)
    requires ExecutionsValid(st) && !Terminal(st.status)
    ensures ExecutionsValid(ClaimStep(st))
  {
    var st' := ClaimStep(st);
    ExclusiveUpdate(st.executions, st.generation + 1, Execution(map[], Loading, 0));
    forall g | g in st'.executions
      ensures 0 < g <= st'.generation
      ensures ExecutionValid(st'.executions[g], Fenced(st', g), st'.epoch, st'.dormant, st'.written, st'.settled,
                             st'.sends, st'.id)
    {
      if g != st.generation + 1 {
        LosesLease(st.executions[g], Fenced(st, g), st.epoch, st.dormant, st.written, st.settled, st.sends, st.id);
        assert !Fenced(st', g);
      }
    }
  }

  lemma {:induction false} ClaimKeeps(st: State)
    requires Inv(st)
    ensures Inv(ClaimStep(st))
  {
    if !Terminal(st.status) { ClaimKeepsExecutions(st); }
  }

  /** Nobody who holds the lease can load a history that is gone. */
  lemma {:induction false} GoneIsNotLoaded(st: State, g: nat)
    requires Dormancy(st) && st.dormant && Fenced(st, g)
    ensures !Dense(st.rows)
  {
    var k :| k in st.rows;
    assert 0 < k && 0 !in st.rows;
  }

  lemma {:induction false} LoadKeeps(st: State, g: nat)
    requires Inv(st)
    ensures Inv(LoadStep(st, g))
  {
    if st.dormant && Fenced(st, g) { GoneIsNotLoaded(st, g); }
    ExclusiveUpdate(st.executions, g, Execution(st.rows, At(0), st.epoch));
  }

  lemma {:induction false} ReplayKeeps(st: State, g: nat)
    requires Inv(st)
    ensures Inv(ReplayStep(st, g))
  {
    if ReplayStep(st, g) != st {
      var k := st.executions[g].phase.step;
      MoveKeeps(st, g, At(k + 1));
      DeliverKeeps(Move(st, g, At(k + 1)), Delivery(k, st.executions[g].epoch, st.executions[g].snapshot[k].answer));
    }
  }

  lemma {:induction false} DivergeKeeps(st: State, g: nat)
    requires Inv(st)
    ensures Inv(DivergeStep(st, g))
  {
    if DivergeStep(st, g) != st { MoveKeeps(st, g, At(st.executions[g].phase.step + 1)); }
  }

  lemma {:induction false} SendKeeps(st: State, step: nat, epoch: nat, first: bool)
    requires Inv(st) && Site(step, epoch) in st.written && (first ==> Request(st.id, step, epoch, first) !in st.sends)
    requires first ==> forall h :: h in st.executions && st.executions[h].phase == Intended(step) ==>
                                   st.executions[h].epoch != epoch
    ensures Inv(st.(sends := st.sends + [Request(st.id, step, epoch, first)]))
  {
  }

  lemma {:induction false} ResendKeeps(st: State, g: nat)
    requires Inv(st)
    ensures Inv(ResendStep(st, g))
  {
    if AtPending(st, g) { SendKeeps(st, st.executions[g].phase.step, st.executions[g].epoch, false); }
  }

  lemma {:induction false} MoveKeeps(st: State, g: nat, phase: Phase)
    requires Inv(st) && g in st.executions && !st.executions[g].phase.Loading? && !phase.Loading? && !phase.Intended?
    ensures Inv(Move(st, g, phase))
  {
    ExclusiveUpdate(st.executions, g, st.executions[g].(phase := phase));
  }

  lemma {:induction false} SettleKeeps(st: State, step: nat, answer: string)
    requires Inv(st) && PendingRow(st.rows, step)
    ensures Inv(Settle(st, step, answer))
  {
  }

  lemma {:induction false} OperatorLoadKeeps(st: State, step: nat)
    requires Inv(st)
    ensures Inv(OperatorLoadStep(st, step))
  {
  }

  lemma {:induction false} OperatorResolveKeeps(st: State, r: Resolution, answer: string)
    requires Inv(st)
    ensures Inv(OperatorResolveStep(st, r, answer))
  {
    if r in st.found && PendingRow(st.rows, r.step) { SettleKeeps(st, r.step, answer); }
  }

  /** A record that is not of a call changes nothing that is promised of calls. */
  lemma {:induction false} AuditKeeps(st: State, audit: nat)
    requires Inv(st) && audit !in st.rows && (st.dormant ==> audit > 0)
    ensures Inv(st.(rows := st.rows[audit := Audit]))
  {
  }

  lemma {:induction false} OperatorAuditKeeps(st: State, audit: nat)
    requires Inv(st)
    ensures Inv(OperatorAuditStep(st, audit))
  {
    if audit in st.audits && audit !in st.rows { AuditKeeps(st, audit); }
  }

  /** Recording under the fence is a settlement, a move and a delivery. */
  lemma {:induction false} RecordKeeps(st: State, g: nat, k: nat, answer: string)
    requires Inv(st) && g in st.executions && !st.executions[g].phase.Loading?
    requires Fenced(st, g) && PendingRow(st.rows, k)
    ensures Inv(Record(st, g, k, answer))
  {
    var st1 := Settle(st, k, answer);
    SettleKeeps(st, k, answer);
    MoveKeeps(st1, g, At(k + 1));
    var st2 := Move(st1, g, At(k + 1));
    var d := Delivery(k, st.executions[g].epoch, answer);
    assert Record(st, g, k, answer) == st2.(deliveries := st2.deliveries + [d]);
    DeliverKeeps(st2, d);
  }

  lemma {:induction false} DeliverKeeps(st: State, d: Delivery)
    requires Inv(st) && Site(d.step, d.epoch) in st.settled && st.settled[Site(d.step, d.epoch)] == d.answer
    ensures Inv(st.(deliveries := st.deliveries + [d]))
  {
  }

  lemma {:induction false} PersistKeeps(st: State, g: nat)
    requires Inv(st)
    ensures Inv(PersistStep(st, g))
  {
    if g in st.executions && st.executions[g].phase.Resolving? {
      var k := st.executions[g].phase.step;
      if Fenced(st, g) && PendingRow(st.rows, k) {
        RecordKeeps(st, g, k, st.executions[g].phase.answer);
        assert PersistStep(st, g) == Record(st, g, k, st.executions[g].phase.answer);
      } else {
        MoveKeeps(st, g, At(k + 1));
        assert PersistStep(st, g) == Move(st, g, At(k + 1));
      }
    }
  }

  /** A step that no row of the epoch holds was never written, sent or intended in it. */
  lemma {:induction false} InsertRowKeeps(st: State, k: nat) returns (st': State)
    requires Inv(st) && !st.dormant && !Terminal(st.status) && k !in st.rows
    ensures st' == st.(rows := st.rows[k := Pending], written := st.written + {Site(k, st.epoch)})
    ensures Inv(st') && Request(st.id, k, st.epoch, true) !in st.sends
    ensures forall h :: h in st.executions && st.executions[h].phase == Intended(k) ==>
                        st.executions[h].epoch != st.epoch
  {
    st' := st.(rows := st.rows[k := Pending], written := st.written + {Site(k, st.epoch)});
    assert Site(k, st.epoch) !in st.written;
  }

  lemma {:induction false} IntendKeeps(st: State, g: nat, k: nat)
    requires Inv(st) && g in st.executions && st.executions[g].phase.At? && st.executions[g].epoch == st.epoch
    requires Site(k, st.epoch) in st.written && Request(st.id, k, st.epoch, true) !in st.sends
    requires forall h :: h in st.executions && st.executions[h].phase == Intended(k) ==>
                         st.executions[h].epoch != st.epoch
    ensures Inv(Move(st, g, Intended(k)))
  {
  }

  lemma {:induction false} WriteIntentKeeps(st: State, g: nat)
    requires Inv(st)
    ensures Inv(WriteIntentStep(st, g))
  {
    if g in st.executions && st.executions[g].phase.At? {
      var k := st.executions[g].phase.step;
      if k !in st.executions[g].snapshot && Fenced(st, g) && k !in st.rows {
        var st' := InsertRowKeeps(st, k);
        IntendKeeps(st', g, k);
        assert WriteIntentStep(st, g) == Move(st', g, Intended(k));
      }
    }
  }

  lemma {:induction false} DispatchKeeps(st: State, g: nat, answer: string)
    requires Inv(st)
    ensures Inv(DispatchStep(st, g, answer))
  {
    if g in st.executions && st.executions[g].phase.Intended? {
      var k, e := st.executions[g].phase.step, st.executions[g].epoch;
      MoveKeeps(st, g, Sent(k, answer));
      assert forall h :: h in st.executions && h != g ==> !SameIntent(st.executions[g], st.executions[h]);
      SendKeeps(Move(st, g, Sent(k, answer)), k, e, true);
    }
  }

  lemma {:induction false} CompleteKeeps(st: State, g: nat)
    requires Inv(st)
    ensures Inv(CompleteStep(st, g))
  {
    if g in st.executions && st.executions[g].phase.Sent? {
      var k := st.executions[g].phase.step;
      if Fenced(st, g) && PendingRow(st.rows, k) {
        RecordKeeps(st, g, k, st.executions[g].phase.answer);
        assert CompleteStep(st, g) == Record(st, g, k, st.executions[g].phase.answer);
      } else {
        MoveKeeps(st, g, At(k));
        assert CompleteStep(st, g) == Move(st, g, At(k));
      }
    }
  }

  lemma {:induction false} CrashKeeps(st: State, g: nat)
    requires Inv(st)
    ensures Inv(CrashStep(st, g))
  {
  }

  /** Leaving the running state breaks no promise: it only takes the fence away. */
  lemma {:induction false} StatusKeeps(st: State, status: Status, generation: nat)
    requires Inv(st) && status != Running && generation >= st.generation
    requires !st.dormant || (st.rows != map[] && st.status != Done)
    requires st.epoch > 0 ==> st.status != Done
    ensures Inv(st.(status := status, generation := generation))
  {
  }

  lemma {:induction false} ResolveKeeps(st: State, g: nat, answer: string)
    requires Inv(st)
    ensures Inv(ResolveStep(st, g, answer))
  {
    if AtPending(st, g) { MoveKeeps(st, g, Resolving(st.executions[g].phase.step, answer)); }
  }

  lemma {:induction false} AmbiguousKeeps(st: State, g: nat)
    requires Inv(st)
    ensures Inv(AmbiguousStep(st, g))
  {
    if AtPending(st, g) { MoveKeeps(st, g, At(st.executions[g].phase.step + 1)); }
  }

  lemma {:induction false} FinishKeeps(st: State, g: nat, outcome: Status)
    requires Inv(st)
    ensures Inv(FinishStep(st, g, outcome))
  {
    if g in st.executions && Fenced(st, g) && outcome != Running {
      CrashKeeps(st, g);
      StatusKeeps(CrashStep(st, g), outcome, st.generation);
      if outcome == Done { PurgeKeeps(CrashStep(st, g).(status := Done)); }
    }
  }

  lemma {:induction false} PurgeKeeps(st: State)
    requires Inv(st) && st.status == Done
    ensures Inv(st.(rows := map[], dormant := true))
  {
  }

  lemma {:induction false} ForceKeeps(st: State, outcome: Status)
    requires Inv(st)
    ensures Inv(ForceStep(st, outcome))
  {
    if ForceStep(st, outcome) != st {
      AuditKeeps(st, NextStep(st.rows));
      StatusKeeps(st.(rows := WithAudit(st.rows)), outcome, st.generation + 1);
    }
  }

  lemma {:induction false} CheckKeeps(st: State, generation: nat)
    requires Inv(st)
    ensures Inv(CheckStep(st, generation))
  {
  }

  lemma {:induction false} RetryKeeps(st: State)
    requires Inv(st)
    ensures Inv(RetryStep(st))
  {
    if st.status == DeadLettered && NoPending(st.rows) { StatusKeeps(st, Ready, st.generation); }
  }

  /** A re-replay over an emptied history opens the second epoch, with its audit record at step 0. */
  lemma {:induction false} ResumeKeeps(st: State, generation: nat)
    requires Inv(st) && Acts(st, generation) && st.dormant && st.rows == map[]
    ensures Inv(ActStep(st, generation))
  {
    var st' := ActStep(st, generation);
    assert NextStep(st.rows) == 0 && st'.rows == map[0 := Audit];
    forall g | g in st.executions
      ensures ExecutionValid(st'.executions[g], Fenced(st', g), st'.epoch, st'.dormant, st'.written, st'.settled,
                             st'.sends, st'.id)
    {
      LosesLease(st.executions[g], Fenced(st, g), st.epoch, st.dormant, st.written, st.settled, st.sends, st.id);
    }
  }

  lemma {:induction false} ActKeeps(st: State, generation: nat)
    requires Inv(st)
    ensures Inv(ActStep(st, generation))
  {
    if Acts(st, generation) {
      if st.dormant && st.rows == map[] {
        ResumeKeeps(st, generation);
      } else {
        AuditKeeps(st, NextStep(st.rows));
        StatusKeeps(st.(rows := WithAudit(st.rows)), Ready, st.generation + 1);
      }
    }
  }

  lemma {:induction false} SweepKeeps(st: State)
    requires Inv(st)
    ensures Inv(SweepStep(st))
  {
  }

  // ---- The guarantees --------------------------------------------------------------------------

  /** Over every run, two fresh dispatches of the same step are of the two epochs: a re-replay
      resumed an emptied history in between. While nothing was swept there is at most one. */
  lemma {:induction false} FreshDispatchAtMostOnce(st: State, i: nat, j: nat)
    requires Reached(st)
    requires i < j < |st.sends| && st.sends[i].first && st.sends[j].first && st.sends[i].step == st.sends[j].step
    ensures st.sends[i].epoch != st.sends[j].epoch && st.epoch == 1 && st.swept && st.sends[i].step > 0
  {
    ReachedInv(st);
    assert Site(st.sends[i].step, st.sends[i].epoch) in st.written;
    assert Site(st.sends[j].step, st.sends[j].epoch) in st.written;
  }

  /** Until its history is swept, or purged with a run that is done, any step the service has seen, by
      a first send or a resend, has a durable row, pending or complete. */
  lemma {:induction false} SeenIsDurable(st: State, i: nat)
    requires Reached(st) && i < |st.sends| && !st.swept && st.status != Done
    ensures st.sends[i].step in st.rows && st.rows[st.sends[i].step] != Audit
  {
    ReachedInv(st);
    assert Site(st.sends[i].step, st.sends[i].epoch) in st.written;
  }

  /** An answer handed to any guest, by any execution, was recorded first. Two answers for the same
      step agree within an epoch, and until the history is gone every answer is the one its row
      holds. */
  lemma {:induction false} AnswersAgree(st: State, i: nat, j: nat)
    requires Reached(st) && i < |st.deliveries| && j < |st.deliveries| && st.deliveries[i].step == st.deliveries[j].step
    ensures var d, e := st.deliveries[i], st.deliveries[j];
            && (d.epoch == e.epoch ==> d.answer == e.answer)
            && (!st.swept ==> d.answer == e.answer)
            && (!st.swept && st.status != Done ==> d.step in st.rows && st.rows[d.step] == Complete(d.answer))
  {
    ReachedInv(st);
    var d := st.deliveries[i];
    assert Site(d.step, d.epoch) in st.settled && Site(d.step, st.deliveries[j].epoch) in st.settled;
    assert Site(d.step, d.epoch) in st.written;
  }

  /** In every state of every run two sends carry the same key exactly when they are of the same step:
      a resend reuses the key of the call it repeats, and no other call does. */
  lemma {:induction false} SameKeySameStep(st: State, i: nat, j: nat)
    requires Reached(st) && i < |st.sends| && j < |st.sends|
    requires IdempotencyKey.NUL !in st.id.workflow && IdempotencyKey.NUL !in st.id.run
    ensures st.sends[i].key == st.sends[j].key <==> st.sends[i].step == st.sends[j].step
  {
    ReachedInv(st);
    var w, r := st.id.workflow, st.id.run;
    IdempotencyKey.MaterialIsInjective(w, r, st.sends[i].step, w, r, st.sends[j].step);
  }

  /** An execution that no longer holds the lease changes no row, whatever it does next. */
  lemma {:induction false} ZombieWritesNothing(st: State, ev: Event, g: nat)
    requires !Fenced(st, g) && By(ev, g)
    ensures Step(st, ev).rows == st.rows && Step(st, ev).status == st.status
  {
  }

  /** The event is a step of execution `g`. */
  predicate By(ev: Event, g: nat) {
    match ev
    case Load(h) => h == g
    case Replay(h) => h == g
    case Diverge(h) => h == g
    case Resend(h) => h == g
    case Resolve(h, _) => h == g
    case Persist(h) => h == g
    case ReportAmbiguous(h) => h == g
    case WriteIntent(h) => h == g
    case Dispatch(h, _) => h == g
    case CompleteIntent(h) => h == g
    case Crash(h) => h == g
    case Finish(h, _) => h == g
    case _ => false
  }

  ghost predicate Preserves<K, V>(m: map<K, V>, n: map<K, V>) {
    forall k :: k in m ==> k in n && n[k] == m[k]
  }

  lemma {:induction false} SegmentSettles(st: State, ev: Event)
    requires Inv(st)
    ensures Preserves(st.settled, SegmentStep(st, ev).settled)
  {
  }

  lemma {:induction false} CallSettles(st: State, ev: Event)
    requires Inv(st)
    ensures Preserves(st.settled, CallStep(st, ev).settled)
  {
  }

  lemma {:induction false} ResolutionSettles(st: State, ev: Event)
    requires Inv(st)
    ensures Preserves(st.settled, ResolutionStep(st, ev).settled)
  {
  }

  lemma {:induction false} OperatorSettles(st: State, ev: Event)
    requires Inv(st)
    ensures Preserves(st.settled, OperatorStep(st, ev).settled)
  {
  }

  lemma {:induction false} LifecycleSettles(st: State, ev: Event)
    requires Inv(st)
    ensures Preserves(st.settled, LifecycleStep(st, ev).settled)
  {
  }

  lemma {:induction false} StepSettles(st: State, ev: Event)
    requires Inv(st)
    ensures Preserves(st.settled, Step(st, ev).settled)
  {
    if OfCall(ev) {
      CallSettles(st, ev);
    } else if OfResolution(ev) {
      ResolutionSettles(st, ev);
    } else if OfOperator(ev) {
      OperatorSettles(st, ev);
    } else if OfLifecycle(ev) {
      LifecycleSettles(st, ev);
    } else {
      SegmentSettles(st, ev);
    }
  }

  /** Pending becomes complete once: whichever of the original worker, a resend, a lookup or an
      operator settles a call first, no later event of any run gives it another answer. */
  lemma {:induction false} SettledOnce(st: State, events: seq<Event>)
    requires Reached(st)
    ensures Preserves(st.settled, Reach(st, events).settled) && Reached(Reach(st, events))
  {
    if events != [] {
      var n := |events| - 1;
      SettledOnce(st, events[..n]);
      ReachedInv(Reach(st, events[..n]));
      StepSettles(Reach(st, events[..n]), events[n]);
      var _ := ReachedStep(Reach(st, events[..n]), events[n]);
    }
  }

  // ---- Sending again under the original key ----------------------------------------------------

  /** What one resend came back with. */
  datatype Reply = TransportError | Resolved(response: string) | RetryLater | Unclear

  /** What the worker knows of the pending row: whether the operation is declared for key replay,
      when the row was created, what the store's clock says, and the configured retention. */
  datatype ReplayPolicy = ReplayPolicy(declared: bool, createdAt: nat, storeNow: Clock, retention: int)

  datatype Clock = Unreadable | Now(at: int)

  datatype Outcome = CannotSay | Answered(response: string)

  const MAX_ATTEMPTS := 3
  const DEFAULT_RETENTION := 86_400_000

  function Retention(p: ReplayPolicy): int {
    if p.retention <= 0 then DEFAULT_RETENTION else p.retention
  }

  /** A row of unknown or expired age is never resent. */
  predicate MayResend(p: ReplayPolicy) {
    p.declared && p.createdAt != 0 && p.storeNow.Now? && p.storeNow.at - p.createdAt <= Retention(p)
  }

  /** Resends at most three times, only while the service says the call is still in flight, always
      under the key of the original step, and answers only with a definite reply. */
  method ReplayUnderOriginalKey(p: ReplayPolicy, key: string, reply: nat -> Reply, cancelled: nat -> bool)
    returns (r: Outcome, keys: seq<string>)
    ensures |keys| <= MAX_ATTEMPTS && (forall i :: 0 <= i < |keys| ==> keys[i] == key)
    ensures keys == [] <==> !MayResend(p)
    ensures keys != [] <==>
              && p.declared && p.createdAt != 0 && p.storeNow.Now?
              && p.storeNow.at <= p.createdAt + (if p.retention <= 0 then 86_400_000 else p.retention)
    ensures forall i :: 1 <= i < |keys| ==> reply(i) == RetryLater && !cancelled(i)
    ensures r == if keys != [] && reply(|keys|).Resolved? then Answered(reply(|keys|).response) else CannotSay
    ensures 0 < |keys| < MAX_ATTEMPTS ==> reply(|keys|) != RetryLater || cancelled(|keys|)
  {
    r, keys := CannotSay, [];
    if !p.declared || p.createdAt == 0 || p.storeNow.Unreadable? {
      return;
    }
    if p.storeNow.at - p.createdAt > Retention(p) {
      return;
    }
    for attempt := 1 to MAX_ATTEMPTS + 1
      invariant r == CannotSay && |keys| == attempt - 1
      invariant forall i :: 0 <= i < |keys| ==> keys[i] == key
      invariant forall i :: 1 <= i < attempt ==> reply(i) == RetryLater && (i < MAX_ATTEMPTS ==> !cancelled(i))
    {
      keys := keys + [key];
      match reply(attempt) {
        case TransportError => return;
        case Resolved(response) => return Answered(response), keys;
        case Unclear => return;
        case RetryLater =>
      }
      if attempt == MAX_ATTEMPTS {
        return;
      }
      if cancelled(attempt) {
        return;
      }
    }
  }

  // ---- One call, in place ----------------------------------------------------------------------

  ghost predicate Others(events: seq<Event>, g: nat) {
    forall i :: 0 <= i < |events| ==> !By(events[i], g)
  }

  predicate Leaves(st: State, st': State, g: nat)
    requires g in st.executions
  {
    g in st'.executions && st'.executions[g] == st.executions[g] && st.generation <= st'.generation
  }

  lemma {:induction false} SegmentLeaves(st: State, ev: Event, g: nat)
    requires g in st.executions && g <= st.generation && !By(ev, g)
    ensures Leaves(st, SegmentStep(st, ev), g)
  {
  }

  lemma {:induction false} CallLeaves(st: State, ev: Event, g: nat)
    requires g in st.executions && g <= st.generation && !By(ev, g)
    ensures Leaves(st, CallStep(st, ev), g)
  {
  }

  lemma {:induction false} ResolutionLeaves(st: State, ev: Event, g: nat)
    requires g in st.executions && g <= st.generation && !By(ev, g)
    ensures Leaves(st, ResolutionStep(st, ev), g)
  {
  }

  lemma {:induction false} OperatorLeaves(st: State, ev: Event, g: nat)
    requires g in st.executions && g <= st.generation && !By(ev, g)
    ensures Leaves(st, OperatorStep(st, ev), g)
  {
  }

  lemma {:induction false} LifecycleLeaves(st: State, ev: Event, g: nat)
    requires g in st.executions && g <= st.generation && !By(ev, g)
    ensures Leaves(st, LifecycleStep(st, ev), g)
  {
  }

  lemma {:induction false} StepLeaves(st: State, ev: Event, g: nat)
    requires g in st.executions && g <= st.generation && !By(ev, g)
    ensures Leaves(st, Step(st, ev), g)
  {
    if OfCall(ev) {
      CallLeaves(st, ev, g);
    } else if OfResolution(ev) {
      ResolutionLeaves(st, ev, g);
    } else if OfOperator(ev) {
      OperatorLeaves(st, ev, g);
    } else if OfLifecycle(ev) {
      LifecycleLeaves(st, ev, g);
    } else {
      SegmentLeaves(st, ev, g);
    }
  }

  /** What others do leaves an execution where it is. */
  lemma {:induction false} OthersLeave(st: State, events: seq<Event>, g: nat)
    requires g in st.executions && g <= st.generation && Others(events, g)
    ensures Leaves(st, Reach(st, events), g)
  {
    if events != [] {
      var n := |events| - 1;
      OthersLeave(st, events[..n], g);
      StepLeaves(Reach(st, events[..n]), events[n], g);
    }
  }

  /** The state at the completion of a call: others act between the intent and the send, and between
      the send and the completion. */
  function AtCompletion(st: State, g: nat, answer: string, before: seq<Event>, after: seq<Event>): State {
    Reach(DispatchStep(Reach(WriteIntentStep(st, g), before), g, answer), after)
  }

  lemma {:induction false} ReachesCompletion(st: State, g: nat, answer: string, before: seq<Event>, after: seq<Event>)
    requires g in st.executions && g <= st.generation && st.executions[g].phase.At?
    requires st.executions[g].phase.step !in st.executions[g].snapshot && Others(before, g) && Others(after, g)
    ensures var k := st.executions[g].phase.step;
            var end := AtCompletion(st, g, answer, before, after);
            if Fenced(st, g) && k !in st.rows then
              && WriteIntentStep(st, g).executions[g].phase == Intended(k)
              && g in end.executions && end.executions[g].phase == Sent(k, answer)
              && end.executions[g].epoch == st.executions[g].epoch
            else WriteIntentStep(st, g) == st
  {
    if Fenced(st, g) && st.executions[g].phase.step !in st.rows {
      var st1 := WriteIntentStep(st, g);
      OthersLeave(st1, before, g);
      OthersLeave(DispatchStep(Reach(st1, before), g, answer), after, g);
    }
  }

  lemma {:induction false} CompletesRow(st: State, g: nat, k: nat, answer: string)
    requires g in st.executions && st.executions[g].phase == Sent(k, answer)
    ensures CompleteStep(st, g).sends == st.sends
    ensures CompleteStep(st, g).rows
         == if Fenced(st, g) && PendingRow(st.rows, k) then st.rows[k := Complete(answer)] else st.rows
    ensures CompleteStep(st, g).deliveries
         == if Fenced(st, g) && PendingRow(st.rows, k)
            then st.deliveries + [Delivery(k, st.executions[g].epoch, answer)] else st.deliveries
  {
  }

  class Instance {
    var st: State

    constructor (id: Identity)
      ensures st == Initial(id)
    {
      st := Initial(id);
    }

    /** Commit the intent, send, commit the outcome, with anything happening in between. Without the
        fence, or with a row at the step, nothing is sent and nothing changes. Otherwise the call is
        sent once, with its row durable, and it is answered exactly if at completion the lease is
        still held and the row still pending; the answer is then what the row holds. */
    method FreshCallWithIntent(g: nat, answer: string, before: seq<Event>, after: seq<Event>) returns (r: Outcome)
      requires g in st.executions && g <= st.generation && st.executions[g].phase.At?
      requires st.executions[g].phase.step !in st.executions[g].snapshot
      requires Others(before, g) && Others(after, g)
      modifies this
      ensures var k := old(st).executions[g].phase.step;
              var end := AtCompletion(old(st), g, answer, before, after);
              if Fenced(old(st), g) && k !in old(st).rows then
                && (r == if Fenced(end, g) && PendingRow(end.rows, k) then Answered(answer) else CannotSay)
                && (r.Answered? ==> st.rows == end.rows[k := Complete(answer)])
                && (r == CannotSay ==> st.rows == end.rows)
                && st.deliveries == (if r.Answered? then end.deliveries + [Delivery(k, old(st).executions[g].epoch, answer)]
                                     else end.deliveries)
                && st.sends == end.sends
              else r == CannotSay && st == old(st)
    {
      var k := st.executions[g].phase.step;
      ReachesCompletion(st, g, answer, before, after);
      st := WriteIntentStep(st, g);
      if st.executions[g].phase != Intended(k) {
        return CannotSay;
      }
      st := Reach(st, before);
      st := DispatchStep(st, g, answer);
      st := Reach(st, after);
      r := if Fenced(st, g) && PendingRow(st.rows, k) then Answered(answer) else CannotSay;
      CompletesRow(st, g, k, answer);
      st := CompleteStep(st, g);
    }
  }

  // ---- The operator's guards -------------------------------------------------------------------

  datatype Recorded = Recorded(step: nat, pending: bool)

  datatype Verdict = Proceed | RefusePending(step: nat) | RefuseSwept

  ghost predicate SomePending(history: seq<Recorded>) {
    exists i :: 0 <= i < |history| && history[i].pending
  }

  /** The guard of a re-replay: it proceeds exactly when no recorded call is pending and the history
      is not an emptied one, and a refusal names the first pending step. */
  method GuardReReplay(history: seq<Recorded>, swept: bool) returns (v: Verdict)
    ensures v == Proceed <==> !SomePending(history) && !(history == [] && swept)
    ensures v.RefusePending? ==>
              exists i :: 0 <= i < |history| && history[i] == Recorded(v.step, true)
                       && (forall j :: 0 <= j < i ==> !history[j].pending)
    ensures v == RefuseSwept <==> history == [] && swept
  {
    for i := 0 to |history|
      invariant forall j :: 0 <= j < i ==> !history[j].pending
    {
      if history[i].pending {
        return RefusePending(history[i].step);
      }
    }
    if |history| == 0 && swept {
      return RefuseSwept;
    }
    return Proceed;
  }

  datatype Target = NoHistory | NoStep | NotPending | Resolvable(auditStep: nat)

  /** The scan of an operator's resolution: it may write only over a pending record of that very
      step, and its audit record goes after every recorded step. */
  method FindResolvable(history: seq<Recorded>, step: nat) returns (t: Target)
    requires forall i, j :: 0 <= i < j < |history| ==> history[i].step != history[j].step
    ensures t == NoHistory <==> history == []
    ensures t.Resolvable? <==> Recorded(step, true) in history
    ensures t == NotPending <==> Recorded(step, false) in history
    ensures t.Resolvable? ==> forall i :: 0 <= i < |history| ==> history[i].step < t.auditStep
    ensures t.Resolvable? ==> exists i :: 0 <= i < |history| && t.auditStep == history[i].step + 1
  {
    if |history| == 0 {
      return NoHistory;
    }
    var target: int := -1;
    var maxStep: int := -1;
    for i := 0 to |history|
      invariant -1 <= target < i
      invariant target >= 0 ==> history[target].step == step
      invariant target < 0 ==> forall j :: 0 <= j < i ==> history[j].step != step
      invariant forall j :: 0 <= j < i ==> history[j].step <= maxStep
      invariant maxStep >= 0 ==> exists j :: 0 <= j < i && maxStep == history[j].step
      invariant maxStep == -1 <==> i == 0
      invariant maxStep >= -1
    {
      if history[i].step > maxStep {
        maxStep := history[i].step;
      }
      if history[i].step == step {
        target := i;
      }
    }
    if target < 0 {
      return NoStep;
    }
    if !history[target].pending {
      return NotPending;
    }
    return Resolvable(maxStep + 1);
  }
}
