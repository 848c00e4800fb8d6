/**
 Where the answers of a run come from: every answer a call was settled with, and every answer a guest was
 given, was brought for that very step by the service's reply to the worker, by the reply to a resend or
 a lookup, or by an operator.
 */
module CallAnswers {
  import opened CallIntent

  /** The event brings this answer for this step: the reply to the dispatch of the step, the reply to a
      resend or lookup of its pending call, or an operator's resolution of it. */
  predicate Brings(st: State, ev: Event, step: nat, answer: string) {
    match ev
    case Dispatch(g, a) => a == answer && g in st.executions && st.executions[g].phase == Intended(step)
    case Resolve(g, a) => a == answer && AtPending(st, g) && st.executions[g].phase.step == step
    case OperatorResolve(r, a) => a == answer && r in st.found && r.step == step
    case _ => false
  }

  /** Some event of the run brought it. */
  ghost predicate Brought(id: Identity, events: seq<Event>, step: nat, answer: string) {
    exists i :: 0 <= i < |events| && Brings(Reach(Initial(id), events[..i]), events[i], step, answer)
  }

  /** The answer an execution holds for a step and has not recorded yet. */
  predicate HoldsAnswer(e: Execution, step: nat, answer: string) {
    e.phase == Sent(step, answer) || e.phase == Resolving(step, answer)
  }

  /** The event settles the step with this answer: it records what its execution holds, or what the
      operator brings. */
  predicate Settles(st: State, ev: Event, step: nat, answer: string) {
    match ev
    case CompleteIntent(g) => g in st.executions && HoldsAnswer(st.executions[g], step, answer)
    case Persist(g) => g in st.executions && HoldsAnswer(st.executions[g], step, answer)
    case OperatorResolve(_, _) => Brings(st, ev, step, answer)
    case _ => false
  }

  /** What an event adds to the settled answers, and to those that executions hold. */
  ghost predicate Accounts(st: State, ev: Event, st': State) {
    && (forall w :: w in st'.settled ==>
          (w in st.settled && st'.settled[w] == st.settled[w]) || Settles(st, ev, w.step, st'.settled[w]))
    && (forall g, k, a :: g in st'.executions && HoldsAnswer(st'.executions[g], k, a) ==>
          (g in st.executions && HoldsAnswer(st.executions[g], k, a)) || Brings(st, ev, k, a))
  }

  lemma {:induction false} CallAccounts(st: State, ev: Event)
    requires OfCall(ev)
    ensures Accounts(st, ev, CallStep(st, ev))
  {
  }

  lemma {:induction false} ResolutionAccounts(st: State, ev: Event)
    requires OfResolution(ev)
    ensures Accounts(st, ev, ResolutionStep(st, ev))
  {
  }

  lemma {:induction false} OperatorAccounts(st: State, ev: Event)
    requires OfOperator(ev)
    ensures Accounts(st, ev, OperatorStep(st, ev))
  {
  }

  lemma {:induction false} LifecycleAccounts(st: State, ev: Event)
    requires OfLifecycle(ev)
    ensures Accounts(st, ev, LifecycleStep(st, ev))
  {
  }

  lemma {:induction false} SegmentAccounts(st: State, ev: Event)
    ensures Accounts(st, ev, SegmentStep(st, ev))
  {
  }

  lemma {:induction false} StepAccounts(st: State, ev: Event)
    ensures Accounts(st, ev, Step(st, ev))
  {
    if OfCall(ev) {
      CallAccounts(st, ev);
    } else if OfResolution(ev) {
      ResolutionAccounts(st, ev);
    } else if OfOperator(ev) {
      OperatorAccounts(st, ev);
    } else if OfLifecycle(ev) {
      LifecycleAccounts(st, ev);
    } else {
      SegmentAccounts(st, ev);
    }
  }

  lemma {:induction false} StillBrought(id: Identity, events: seq<Event>, step: nat, answer: string)
    requires events != [] && Brought(id, events[..|events| - 1], step, answer)
    ensures Brought(id, events, step, answer)
  {
    var n := |events| - 1;
    var i :| 0 <= i < n && Brings(Reach(Initial(id), events[..n][..i]), events[..n][i], step, answer);
    assert events[..n][..i] == events[..i];
  }

  lemma {:induction false} NowBrought(id: Identity, events: seq<Event>, step: nat, answer: string)
    requires events != []
    requires Brings(Reach(Initial(id), events[..|events| - 1]), events[|events| - 1], step, answer)
    ensures Brought(id, events, step, answer)
  {
  }

  /** All answers of a state were brought: the settled ones and those executions hold. */
  ghost predicate AllBrought(id: Identity, events: seq<Event>, st: State) {
    && (forall w :: w in st.settled ==> Brought(id, events, w.step, st.settled[w]))
    && (forall g, k, a :: g in st.executions && HoldsAnswer(st.executions[g], k, a) ==> Brought(id, events, k, a))
  }

  /** Over every run: whatever a step was settled with was brought for that step, and so was whatever an
      execution holds and has not recorded. */
  lemma {:induction false} AnswersAreBrought(id: Identity, events: seq<Event>)
    ensures AllBrought(id, events, Reach(Initial(id), events))
  {
    if events != [] {
      var n := |events| - 1;
      AnswersAreBrought(id, events[..n]);
      var st := Reach(Initial(id), events[..n]);
      StepAccounts(st, events[n]);
      StepBrings(id, events, st, Step(st, events[n]));
    }
  }

  lemma {:induction false} StepBrings(id: Identity, events: seq<Event>, st: State, st': State)
    requires events != [] && st == Reach(Initial(id), events[..|events| - 1])
    requires AllBrought(id, events[..|events| - 1], st) && Accounts(st, events[|events| - 1], st')
    ensures AllBrought(id, events, st')
  {
    forall g, k, a | g in st'.executions && HoldsAnswer(st'.executions[g], k, a) ensures Brought(id, events, k, a) {
      HeldIsBrought(id, events, st, st', g, k, a);
    }
    forall w | w in st'.settled ensures Brought(id, events, w.step, st'.settled[w]) {
      SettledIsBrought(id, events, st, st', w);
    }
  }

  lemma {:induction false} HeldIsBrought(id: Identity, events: seq<Event>, st: State, st': State, g: nat, k: nat,
                                         a: string)
    requires events != [] && st == Reach(Initial(id), events[..|events| - 1])
    requires AllBrought(id, events[..|events| - 1], st) && Accounts(st, events[|events| - 1], st')
    requires g in st'.executions && HoldsAnswer(st'.executions[g], k, a)
    ensures Brought(id, events, k, a)
  {
    if Brings(st, events[|events| - 1], k, a) {
      NowBrought(id, events, k, a);
    } else {
      assert g in st.executions && HoldsAnswer(st.executions[g], k, a);
      StillBrought(id, events, k, a);
    }
  }

  lemma {:induction false} SettledIsBrought(id: Identity, events: seq<Event>, st: State, st': State, w: Site)
    requires events != [] && st == Reach(Initial(id), events[..|events| - 1]) && w in st'.settled
    requires AllBrought(id, events[..|events| - 1], st) && Accounts(st, events[|events| - 1], st')
    ensures Brought(id, events, w.step, st'.settled[w])
  {
    var ev, a := events[|events| - 1], st'.settled[w];
    if ev.OperatorResolve? && Brings(st, ev, w.step, a) {
      NowBrought(id, events, w.step, a);
    } else {
      assert Brought(id, events[..|events| - 1], w.step, a);
      StillBrought(id, events, w.step, a);
    }
  }

  /** So every answer any guest was ever given was brought for the step it was given at. */
  lemma {:induction false} DeliveriesAreBrought(id: Identity, events: seq<Event>, i: nat)
    requires i < |Reach(Initial(id), events).deliveries|
    ensures var d := Reach(Initial(id), events).deliveries[i]; Brought(id, events, d.step, d.answer)
  {
    AnswersAreBrought(id, events);
    ReachKeepsInv(id, events);
    var st := Reach(Initial(id), events);
    var d := st.deliveries[i];
    assert Site(d.step, d.epoch) in st.settled && st.settled[Site(d.step, d.epoch)] == d.answer;
  }

  // ---- From the reply to the row ---------------------------------------------------------------

  /** A resolution, with anything others do in between, becomes the row and the guest's answer exactly if
      the lease is still held and the row still pending when it is recorded; otherwise the guest is told
      nothing. Either way the execution goes on at the next step. */
  lemma {:induction false} ResolutionIsRecorded(st: State, g: nat, answer: string, between: seq<Event>)
    requires AtPending(st, g) && g <= st.generation && Others(between, g)
    ensures var k := st.executions[g].phase.step;
            var mid := Reach(Step(st, Resolve(g, answer)), between);
            var end := Step(mid, Persist(g));
            && end.rows == (if Fenced(mid, g) && PendingRow(mid.rows, k) then mid.rows[k := Complete(answer)] else mid.rows)
            && end.deliveries == (if Fenced(mid, g) && PendingRow(mid.rows, k)
                                  then mid.deliveries + [Delivery(k, st.executions[g].epoch, answer)] else mid.deliveries)
            && g in end.executions && end.executions[g].phase == At(k + 1)
  {
    var k := st.executions[g].phase.step;
    var resolved := Step(st, Resolve(g, answer));
    assert resolved.executions[g].phase == Resolving(k, answer);
    OthersLeave(resolved, between, g);
    PersistRecords(Reach(resolved, between), g, k, answer);
  }

  lemma {:induction false} PersistRecords(mid: State, g: nat, k: nat, answer: string)
    requires g in mid.executions && mid.executions[g].phase == Resolving(k, answer)
    ensures var end := Step(mid, Persist(g));
            && end.rows == (if Fenced(mid, g) && PendingRow(mid.rows, k) then mid.rows[k := Complete(answer)] else mid.rows)
            && end.deliveries == (if Fenced(mid, g) && PendingRow(mid.rows, k)
                                  then mid.deliveries + [Delivery(k, mid.executions[g].epoch, answer)] else mid.deliveries)
            && g in end.executions && end.executions[g].phase == At(k + 1)
  {
  }

  /** An operator's answer becomes the row exactly if the row they found is still pending, whoever holds
      the lease; nothing else of the history changes. */
  lemma {:induction false} OperatorAnswerIsRecorded(st: State, r: Resolution, answer: string)
    ensures var end := Step(st, OperatorResolve(r, answer));
            && end.rows == (if r in st.found && PendingRow(st.rows, r.step) then st.rows[r.step := Complete(answer)] else st.rows)
            && end.deliveries == st.deliveries && end.executions == st.executions && end.sends == st.sends
  {
  }

  /** An execution that loads the history after that is given the recorded answer when it comes to the
      step, and goes on. */
  lemma {:induction false} RecordedAnswerIsDelivered(st: State, g: nat, between: seq<Event>, k: nat, answer: string)
    requires g in st.executions && g <= st.generation && st.executions[g].phase == At(k) && Others(between, g)
    requires k in st.executions[g].snapshot && st.executions[g].snapshot[k] == Complete(answer)
    ensures var mid := Reach(st, between);
            var end := Step(mid, Replay(g));
            && end.deliveries == mid.deliveries + [Delivery(k, st.executions[g].epoch, answer)]
            && end.rows == mid.rows && g in end.executions && end.executions[g].phase == At(k + 1)
  {
    OthersLeave(st, between, g);
  }

  /** What a loading execution will replay is the history as it stands. */
  lemma {:induction false} LoadTakesTheHistory(st: State, g: nat)
    requires g in st.executions && st.executions[g].phase.Loading? && Dense(st.rows)
    ensures var end := Step(st, Load(g));
            && g in end.executions && end.executions[g] == Execution(st.rows, At(0), st.epoch) && end.rows == st.rows
  {
  }

  /** A pending call is sent again once, as a repetition, under the key its first send carried. */
  lemma {:induction false} ResendRepeats(st: State, g: nat, i: nat)
    requires Reached(st) && AtPending(st, g) && i < |st.sends| && st.sends[i].step == st.executions[g].phase.step
    ensures var end := Step(st, Resend(g));
            && |end.sends| == |st.sends| + 1 && end.sends[..|st.sends|] == st.sends
            && end.sends[|st.sends|].step == st.sends[i].step && end.sends[|st.sends|].key == st.sends[i].key
            && !end.sends[|st.sends|].first && end.rows == st.rows && end.deliveries == st.deliveries
  {
    ReachedInv(st);
  }

  /** A call that stays ambiguous settles nothing, and the guest goes on. */
  lemma {:induction false} AmbiguityIsReported(st: State, g: nat)
    requires AtPending(st, g)
    ensures var end := Step(st, ReportAmbiguous(g));
            && end.rows == st.rows && end.settled == st.settled && end.deliveries == st.deliveries && end.sends == st.sends
            && end.executions[g].phase == At(st.executions[g].phase.step + 1)
  {
  }

  // ---- Ending and reopening a run ----------------------------------------------------------------

  /** All rows stay, and one audit row follows the last of them. */
  ghost predicate AuditFollows(rows: map<nat, Row>, rows': map<nat, Row>) {
    && (forall k :: k in rows ==> k in rows' && rows'[k] == rows[k])
    && (exists a :: rows'.Keys == rows.Keys + {a} && rows'[a] == Audit && (forall k :: k in rows ==> k < a))
  }

  /** An operator ends exactly a run that is not finished: its lease is void, its rows stay, and one audit
      record follows the last of them. */
  lemma {:induction false} ForceEnds(st: State, outcome: Status)
    requires outcome == Done || outcome == Failed
    ensures var end := Step(st, Force(outcome));
            if st.status == Ready || st.status == Running then
              && end.status == outcome && (forall g: nat :: g <= st.generation ==> !Fenced(end, g))
              && AuditFollows(st.rows, end.rows)
            else end == st
  {
    var a := NextStep(st.rows);
    assert st.status == Ready || st.status == Running ==> Step(st, Force(outcome)).rows == st.rows[a := Audit];
  }

  /** A dead-lettered run is made ready again exactly when none of its calls is pending. */
  lemma {:induction false} RetryReopens(st: State)
    ensures var end := Step(st, RetryDeadLettered);
            && end.status == (if st.status == DeadLettered && (forall k: nat :: !PendingRow(st.rows, k)) then Ready
                              else st.status)
            && end.rows == st.rows && end.generation == st.generation
  {
    if forall k: nat :: !PendingRow(st.rows, k) {
      forall k: nat | k in st.rows ensures st.rows[k] != Pending { assert !PendingRow(st.rows, k); }
    }
  }

  /** The holder of the lease ends its segment with the status it reports; a run that is done loses its
      history, any other keeps it. No one else ends it. */
  lemma {:induction false} FinishEnds(st: State, g: nat, outcome: Status)
    requires g in st.executions && outcome != Running
    ensures var end := Step(st, Finish(g, outcome));
            if Fenced(st, g) then
              end.status == outcome && g !in end.executions && end.rows == (if outcome == Done then map[] else st.rows)
            else end == st
  {
  }

  // ---- The guards and the machine ----------------------------------------------------------------

  /** The history an operator's request loads lists these rows: each step once, pending or not. */
  ghost predicate ListsRows(history: seq<Recorded>, rows: map<nat, Row>) {
    && (forall i, j :: 0 <= i < j < |history| ==> history[i].step != history[j].step)
    && (forall i :: 0 <= i < |history| ==>
          history[i].step in rows && (history[i].pending <==> rows[history[i].step] == Pending))
    && (forall k: nat :: k in rows ==> exists i :: 0 <= i < |history| && history[i].step == k)
  }

  /** A re-replay's check passes exactly when its guard, over the history it loads, proceeds. */
  lemma {:induction false} CheckIsTheGuard(st: State, history: seq<Recorded>, generation: nat)
    requires ListsRows(history, st.rows)
    ensures var passes := !SomePending(history) && !(history == [] && st.swept);
            && Step(st, CheckReReplay(generation)).approvals == (if passes then st.approvals + {generation} else st.approvals)
            && Step(st, CheckReReplay(generation)).rows == st.rows
  {
    if SomePending(history) {
      var i :| 0 <= i < |history| && history[i].pending;
      assert st.rows[history[i].step] == Pending;
    } else {
      forall k: nat | k in st.rows ensures st.rows[k] != Pending {
        var i :| 0 <= i < |history| && history[i].step == k;
        assert !history[i].pending;
      }
    }
    if history == [] {
      assert st.rows.Keys == {};
      assert st.rows == map[];
    } else {
      assert history[0].step in st.rows;
    }
  }

  /** What an operator's request finds is a pending step of the history it loads, with the step after the
      last one for its audit record. */
  lemma {:induction false} LoadFindsThePending(st: State, history: seq<Recorded>, step: nat, audit: nat)
    requires ListsRows(history, st.rows) && Resolution(step, audit) !in st.found
    ensures Resolution(step, audit) in Step(st, OperatorLoad(step)).found
       <==> && Recorded(step, true) in history
            && (forall i :: 0 <= i < |history| ==> history[i].step < audit)
            && (exists i :: 0 <= i < |history| && audit == history[i].step + 1)
  {
    if PendingRow(st.rows, step) {
      var i :| 0 <= i < |history| && history[i].step == step;
      assert history[i] == Recorded(step, true);
      LastListed(st.rows, history, audit);
    }
  }

  lemma {:induction false} LastListed(rows: map<nat, Row>, history: seq<Recorded>, audit: nat)
    requires ListsRows(history, rows) && rows != map[]
    ensures audit == NextStep(rows)
       <==> && (forall i :: 0 <= i < |history| ==> history[i].step < audit)
            && (exists i :: 0 <= i < |history| && audit == history[i].step + 1)
  {
    var next := NextStep(rows);
    assert rows.Keys != {};
    SomeGreatest(rows.Keys);
    var k :| k in rows.Keys && forall j :: j in rows.Keys ==> j <= k;
    var i :| 0 <= i < |history| && history[i].step == k;
    assert k < next;
  }

  /** A re-replay that was approved for this very generation reopens exactly a run that failed, was
      terminated or dead-lettered: every earlier lease is void, its rows stay, and one audit record follows
      the last of them. */
  lemma {:induction false} ActReopens(st: State, generation: nat)
    ensures var end := Step(st, ActReReplay(generation));
            if generation in st.approvals && generation == st.generation
               && st.status in {Failed, Terminated, DeadLettered} then
              && end.status == Ready && end.generation == st.generation + 1
              && AuditFollows(st.rows, end.rows)
            else end == st
  {
    var a := NextStep(st.rows);
    assert Acts(st, generation) ==> Step(st, ActReReplay(generation)).rows == st.rows[a := Audit];
  }
}
