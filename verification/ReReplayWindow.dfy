/**
 When the same step is sent afresh twice. A re-replay checks the history in one statement and acts
 in another; the log of checks, sweep and re-replays tells, over every run, whether a sweep fell in
 between.
 */
module ReReplayWindow {
  import opened CallIntent

  predicate FreshAt(s: Send, k: nat) {
    s.first && s.step == k
  }

  ghost predicate SentFresh(st: State, k: nat) {
    exists i :: 0 <= i < |st.sends| && FreshAt(st.sends[i], k)
  }

  ghost predicate SentTwice(st: State, k: nat) {
    exists i, j :: 0 <= i < j < |st.sends| && FreshAt(st.sends[i], k) && FreshAt(st.sends[j], k)
  }

  // ---- What the log says -----------------------------------------------------------------------

  ghost predicate ApprovedBeforeSweep(log: seq<Mark>, generation: nat) {
    exists c, s :: 0 <= c < s < |log| && log[c] == Approved(generation) && log[s] == Swept
  }

  /** A check passed, then the history was swept, then the re-replay acted on what was left: nothing. */
  ghost predicate StaleReReplay(log: seq<Mark>) {
    exists c, s, a :: && 0 <= c < s < a < |log| && log[c].Approved? && log[s] == Swept
                      && log[a] == Resumed(log[c].generation, true)
  }

  /** The whole history is gone and nothing has come in its place. */
  predicate Emptied(st: State) {
    st.swept && st.dormant && st.rows == map[] && st.status != Done
  }

  ghost predicate LogInv(st: State) {
    && (st.swept <==> Swept in st.log)
    && (forall n :: n in st.approvals ==> Approved(n) in st.log)
    && (Emptied(st) ==> forall n :: n in st.approvals ==> ApprovedBeforeSweep(st.log, n))
    && (st.epoch > 0 <==> StaleReReplay(st.log))
  }

  lemma {:induction false} LogGrows(log: seq<Mark>, m: Mark)
    ensures forall n :: ApprovedBeforeSweep(log, n) ==> ApprovedBeforeSweep(log + [m], n)
    ensures StaleReReplay(log) ==> StaleReReplay(log + [m])
  {
    var log' := log + [m];
    forall n | ApprovedBeforeSweep(log, n) ensures ApprovedBeforeSweep(log', n) {
      var c, s :| 0 <= c < s < |log| && log[c] == Approved(n) && log[s] == Swept;
      assert log'[c] == Approved(n) && log'[s] == Swept;
    }
    if StaleReReplay(log) {
      var c, s, a :| 0 <= c < s < a < |log| && log[c].Approved? && log[s] == Swept
                     && log[a] == Resumed(log[c].generation, true);
      assert log'[c].Approved? && log'[s] == Swept && log'[a] == Resumed(log'[c].generation, true);
    }
  }

  lemma {:induction false} StaleNow(log: seq<Mark>, m: Mark)
    ensures StaleReReplay(log + [m]) && !StaleReReplay(log) ==>
              m.Resumed? && m.emptied && ApprovedBeforeSweep(log, m.generation)
  {
    var log' := log + [m];
    if StaleReReplay(log') && !StaleReReplay(log) {
      var c, s, a :| 0 <= c < s < a < |log'| && log'[c].Approved? && log'[s] == Swept
                     && log'[a] == Resumed(log'[c].generation, true);
      assert forall i :: 0 <= i < |log| ==> log'[i] == log[i];
      assert a == |log|;
      assert log[c] == Approved(m.generation) && log[s] == Swept;
    }
  }

  predicate Logs(ev: Event) {
    ev.CheckReReplay? || ev.ActReReplay? || ev.Sweep?
  }

  /** What does not touch the log cannot empty a history either. */
  predicate Quiet(st: State, st': State) {
    && st'.log == st.log && st'.approvals == st.approvals && st'.swept == st.swept && st'.epoch == st.epoch
    && (Emptied(st') ==> Emptied(st))
  }

  lemma {:induction false} SegmentIsQuiet(st: State, ev: Event)
    requires Inv(st)
    ensures Quiet(st, SegmentStep(st, ev))
  {
  }

  lemma {:induction false} CallIsQuiet(st: State, ev: Event)
    requires Inv(st)
    ensures Quiet(st, CallStep(st, ev))
  {
  }

  lemma {:induction false} ResolutionIsQuiet(st: State, ev: Event)
    requires Inv(st)
    ensures Quiet(st, ResolutionStep(st, ev))
  {
  }

  lemma {:induction false} OperatorIsQuiet(st: State, ev: Event)
    requires Inv(st)
    ensures Quiet(st, OperatorStep(st, ev))
  {
  }

  lemma {:induction false} RetryIsQuiet(st: State)
    requires Inv(st)
    ensures Quiet(st, RetryStep(st))
  {
  }

  lemma {:induction false} OthersAreQuiet(st: State, ev: Event)
    requires Inv(st) && !Logs(ev)
    ensures Quiet(st, Step(st, ev))
  {
    if OfCall(ev) {
      CallIsQuiet(st, ev);
    } else if OfResolution(ev) {
      ResolutionIsQuiet(st, ev);
    } else if OfOperator(ev) {
      OperatorIsQuiet(st, ev);
    } else if OfLifecycle(ev) {
      RetryIsQuiet(st);
    } else {
      SegmentIsQuiet(st, ev);
    }
  }

  lemma {:induction false} CheckLogs(st: State, generation: nat)
    requires LogInv(st)
    ensures LogInv(CheckStep(st, generation))
  {
    LogGrows(st.log, Approved(generation));
    StaleNow(st.log, Approved(generation));
  }

  lemma {:induction false} SweepLogs(st: State)
    requires Inv(st) && LogInv(st)
    ensures LogInv(SweepStep(st))
  {
    LogGrows(st.log, Swept);
    StaleNow(st.log, Swept);
    var st' := SweepStep(st);
    if st' != st {
      assert st'.log[|st.log|] == Swept;
      forall n | n in st.approvals ensures ApprovedBeforeSweep(st'.log, n) {
        var c :| 0 <= c < |st.log| && st.log[c] == Approved(n);
        assert st'.log[c] == Approved(n);
      }
    }
  }

  /** After the sweep a check passes only over a history that is not empty, and that history stays so. */
  lemma {:induction false} ActLogs(st: State, generation: nat)
    requires Inv(st) && LogInv(st)
    ensures LogInv(ActStep(st, generation))
  {
    if Acts(st, generation) {
      var m := Resumed(generation, st.rows == map[]);
      LogGrows(st.log, m);
      StaleNow(st.log, m);
      if Emptied(st) {
        var c, s :| 0 <= c < s < |st.log| && st.log[c] == Approved(generation) && st.log[s] == Swept;
        assert (st.log + [m])[c] == Approved(generation) && (st.log + [m])[s] == Swept && (st.log + [m])[|st.log|] == m;
      }
    }
  }

  lemma {:induction false} StepLogs(st: State, ev: Event)
    requires Inv(st) && LogInv(st)
    ensures LogInv(Step(st, ev))
  {
    match ev
    case CheckReReplay(n) => CheckLogs(st, n);
    case ActReReplay(n) => ActLogs(st, n);
    case Sweep => SweepLogs(st);
    case _ => OthersAreQuiet(st, ev);
  }

  lemma {:induction false} ReachLogs(id: Identity, events: seq<Event>)
    ensures LogInv(Reach(Initial(id), events))
  {
    if events != [] {
      ReachLogs(id, events[..|events| - 1]);
      ReachKeepsInv(id, events[..|events| - 1]);
      StepLogs(Reach(Initial(id), events[..|events| - 1]), events[|events| - 1]);
    }
  }

  lemma {:induction false} ReachedLog(st: State)
    requires Reached(st)
    ensures LogInv(st)
  {
    var events :| st == Reach(Initial(st.id), events);
    ReachLogs(st.id, events);
  }

  /** Over every run, a step is sent afresh twice only if a re-replay acted on a history swept after
      its own check had passed, and never the first step, where that re-replay left its record. */
  lemma {:induction false} TwoFreshSends(st: State, k: nat)
    requires Reached(st) && SentTwice(st, k)
    ensures k > 0 && StaleReReplay(st.log)
  {
    var i, j :| 0 <= i < j < |st.sends| && FreshAt(st.sends[i], k) && FreshAt(st.sends[j], k);
    FreshDispatchAtMostOnce(st, i, j);
    ReachedLog(st);
  }

  // ---- The window is exact ---------------------------------------------------------------------

  ghost predicate NoSweep(events: seq<Event>) {
    Sweep !in events
  }

  /** One state leads to another with no sweep on the way. */
  ghost predicate Leads(st: State, st': State) {
    exists events :: NoSweep(events) && Reach(st, events) == st'
  }

  lemma {:induction false} LeadsOn(st0: State, st: State, ev: Event) returns (st': State)
    requires Leads(st0, st) && ev != Sweep
    ensures st' == Step(st, ev) && Leads(st0, st')
  {
    var events :| NoSweep(events) && Reach(st0, events) == st;
    st' := Step(st, ev);
    assert (events + [ev])[..|events|] == events;
    assert NoSweep(events + [ev]) && Reach(st0, events + [ev]) == st';
  }

  lemma {:induction false} LeadsReached(st0: State, st: State)
    requires Reached(st0) && Leads(st0, st)
    ensures Reached(st)
  {
    var events :| NoSweep(events) && Reach(st0, events) == st;
    SettledOnce(st0, events);
  }

  /** The lease holder has come to step `k`, and every row is below it. */
  ghost predicate Working(st: State, g: nat, k: nat) {
    && Fenced(st, g) && g in st.executions && st.executions[g].phase == At(k)
    && (forall i: nat :: i in st.rows || i in st.executions[g].snapshot ==> i < k)
  }

  /** What calls of the lease holder leave alone. */
  predicate Onward(st: State, st': State) {
    && st.sends <= st'.sends && (NoPending(st.rows) ==> NoPending(st'.rows))
    && st'.swept == st.swept && st'.approvals == st.approvals && st'.id == st.id
  }

  function Called(st: State, g: nat): State {
    CompleteStep(DispatchStep(WriteIntentStep(st, g), g, ""), g)
  }

  lemma {:induction false} CalledOnce(st: State, g: nat, k: nat)
    requires Working(st, g, k)
    ensures var st' := Called(st, g);
            && Working(st', g, k + 1) && Onward(st, st') && k in st'.rows
            && |st'.sends| == |st.sends| + 1 && FreshAt(st'.sends[|st.sends|], k)
  {
    var st1 := WriteIntentStep(st, g);
    assert st1.executions[g].phase == Intended(k) && st1.rows == st.rows[k := Pending];
    var st2 := DispatchStep(st1, g, "");
    assert st2.executions[g].phase == Sent(k, "") && st2.rows == st1.rows;
    assert Called(st, g).rows == st.rows[k := Complete("")];
  }

  lemma {:induction false} OneCall(st0: State, st: State, g: nat, k: nat) returns (st': State)
    requires Leads(st0, st) && Working(st, g, k)
    ensures Leads(st0, st') && Working(st', g, k + 1) && Onward(st, st') && k in st'.rows
    ensures |st'.sends| == |st.sends| + 1 && FreshAt(st'.sends[|st.sends|], k)
  {
    CalledOnce(st, g, k);
    st' := Called(st, g);
    LeadsCalled(st0, st, g);
  }

  lemma {:induction false} LeadsCalled(st0: State, st: State, g: nat)
    requires Leads(st0, st)
    ensures Leads(st0, Called(st, g))
  {
    var st1 := LeadsOn(st0, st, WriteIntent(g));
    var st2 := LeadsOn(st0, st1, Dispatch(g, ""));
    var _ := LeadsOn(st0, st2, CompleteIntent(g));
  }

  /** Calls from step `n` up to step `k`. */
  lemma {:induction false} CallsTo(st0: State, st: State, g: nat, n: nat, k: nat) returns (st': State)
    requires Leads(st0, st) && Working(st, g, n) && n <= k
    ensures Leads(st0, st') && Working(st', g, k) && Onward(st, st')
    decreases k - n
  {
    st' := st;
    if n < k {
      var st1 := OneCall(st0, st, g, n);
      st' := CallsTo(st0, st1, g, n + 1, k);
    }
  }

  lemma {:induction false} ClaimAndLoad(st0: State, st: State) returns (st': State, g: nat)
    requires Leads(st0, st) && st.status == Ready && Dense(st.rows)
    ensures Leads(st0, st') && Fenced(st', g) && g in st'.executions
    ensures st'.executions[g] == Execution(st.rows, At(0), st.epoch) && st'.rows == st.rows && st'.sends == st.sends
    ensures st'.swept == st.swept && st'.approvals == st.approvals && st'.id == st.id
  {
    g := st.generation + 1;
    var st1 := LeadsOn(st0, st, Claim);
    st' := LeadsOn(st0, st1, Load(g));
  }

  /** The record of the re-replay costs the first call a divergence; the run goes on at step 1. */
  lemma {:induction false} PassRecord(st: State) returns (st': State, g: nat)
    requires st.status == Ready && st.rows == map[0 := Audit]
    ensures Leads(st, st') && Working(st', g, 1) && st'.sends == st.sends
  {
    assert Reach(st, []) == st && NoSweep([]);
    var st1;
    st1, g := ClaimAndLoad(st, st);
    PassesRecord(st1, g);
    st' := LeadsOn(st, st1, Diverge(g));
    assert st' == DivergeStep(st1, g);
  }

  lemma {:induction false} PassesRecord(st: State, g: nat)
    requires Fenced(st, g) && g in st.executions && st.rows == map[0 := Audit]
    requires st.executions[g] == Execution(map[0 := Audit], At(0), st.executions[g].epoch)
    ensures Working(DivergeStep(st, g), g, 1) && DivergeStep(st, g).sends == st.sends
  {
  }

  /** Resumed over an emptied history, the run makes its calls again from the second on. */
  lemma {:induction false} ResumedCallsAgain(st: State, k: nat)
    requires st.status == Ready && st.rows == map[0 := Audit] && k > 0 && SentFresh(st, k)
    ensures exists st' :: Leads(st, st') && SentTwice(st', k)
  {
    var st2, g := PassRecord(st);
    var st3 := CallsTo(st, st2, g, 1, k);
    var st4 := OneCall(st, st3, g, k);
    SentAgain(st, st3, st4, k);
  }

  lemma {:induction false} SentAgain(st: State, mid: State, st': State, k: nat)
    requires SentFresh(st, k) && st.sends <= mid.sends <= st'.sends
    requires |mid.sends| < |st'.sends| && FreshAt(st'.sends[|mid.sends|], k)
    ensures SentTwice(st', k)
  {
    var i :| 0 <= i < |st.sends| && FreshAt(st.sends[i], k);
    assert FreshAt(st'.sends[i], k);
  }

  /** The history is gone for good: a late record, or the end of the run, keeps it from being resumed. */
  predicate GoneForGood(st: State) {
    st.epoch == 0 && st.dormant && (st.rows != map[] || st.status == Done)
  }

  lemma {:induction false} GoneStaysGone(st: State, ev: Event)
    requires Inv(st) && GoneForGood(st) && ev != Sweep
    ensures GoneForGood(Step(st, ev))
  {
  }

  /** Without a sweep on the way, a run keeps its first epoch unless it is resumed over nothing. */
  lemma {:induction false} NoSecondEpoch(st: State, events: seq<Event>)
    requires Reached(st) && NoSweep(events) && st.epoch == 0 && (!st.swept || GoneForGood(st))
    ensures Reached(Reach(st, events)) && Reach(st, events).epoch == 0
    ensures !Reach(st, events).swept || GoneForGood(Reach(st, events))
  {
    if events != [] {
      var n := |events| - 1;
      assert events[n] != Sweep;
      NoSecondEpoch(st, events[..n]);
      var mid := Reach(st, events[..n]);
      ReachedInv(mid);
      var _ := ReachedStep(mid, events[n]);
      if mid.swept {
        GoneStaysGone(mid, events[n]);
      } else {
        StaysUnswept(mid, events[n]);
      }
    }
  }

  lemma {:induction false} StaysUnswept(st: State, ev: Event)
    requires Inv(st) && !st.swept && ev != Sweep
    ensures !Step(st, ev).swept && Step(st, ev).epoch == st.epoch
  {
    if !Logs(ev) { OthersAreQuiet(st, ev); }
  }

  /** The exact condition, which the caller of a re-replay can look up before acting: with no further
      sweep a step already sent can be sent afresh again if and only if the history has been swept
      and is empty when the re-replay acts, and the step is not the first. */
  lemma {:induction false} ReReplayIsExact(st: State, generation: nat, k: nat)
    requires Reached(st) && !StaleReReplay(st.log) && Acts(st, generation) && SentFresh(st, k)
    ensures (exists st' :: Leads(ActStep(st, generation), st') && SentTwice(st', k))
       <==> k > 0 && st.swept && st.rows == map[]
  {
    ReachedInv(st);
    ReachedLog(st);
    var acted := ReachedStep(st, ActReReplay(generation));
    if k > 0 && st.swept && st.rows == map[] {
      ResumedCallsAgain(acted, k);
    } else {
      forall st' | Leads(acted, st') ensures !SentTwice(st', k) {
        NotAgain(st, acted, generation, k, st');
      }
    }
  }

  lemma {:induction false} NotAgain(st: State, acted: State, generation: nat, k: nat, st': State)
    requires Reached(st) && Inv(st) && st.epoch == 0 && Acts(st, generation)
    requires acted == ActStep(st, generation) && Reached(acted) && Leads(acted, st')
    requires k == 0 || !st.swept || st.rows != map[]
    ensures !SentTwice(st', k)
  {
    LeadsReached(acted, st');
    if SentTwice(st', k) {
      var i, j :| 0 <= i < j < |st'.sends| && FreshAt(st'.sends[i], k) && FreshAt(st'.sends[j], k);
      FreshDispatchAtMostOnce(st', i, j);
      var events :| NoSweep(events) && Reach(acted, events) == st';
      NoSecondEpoch(acted, events);
    }
  }

  /** The window is real at every step but the first: exactly those can be sent afresh twice. */
  lemma {:induction false} WindowAtEveryLaterStep(id: Identity, k: nat)
    ensures (exists st: State :: st.id == id && Reached(st) && SentTwice(st, k)) <==> k > 0
  {
    forall st | Reached(st) && SentTwice(st, k) ensures k > 0 {
      TwoFreshSends(st, k);
    }
    if k > 0 {
      var failed := FailAfterCalling(id, k);
      var swept := CheckThenSweep(failed);
      ReachedLog(swept);
      ReReplayIsExact(swept, swept.generation, k);
      var acted := ReachedStep(swept, ActReReplay(swept.generation));
      var st :| Leads(acted, st) && SentTwice(st, k);
      LeadsReached(acted, st);
      LeadsKeepsId(acted, st);
    }
  }

  lemma {:induction false} LeadsKeepsId(st: State, st': State)
    requires Reached(st) && Leads(st, st')
    ensures st'.id == st.id
  {
    var events :| NoSweep(events) && Reach(st, events) == st';
    ReachKeepsId(st, events);
  }

  lemma {:induction false} ReachKeepsId(st: State, events: seq<Event>)
    ensures Reach(st, events).id == st.id
  {
    if events != [] {
      ReachKeepsId(st, events[..|events| - 1]);
      StepKeepsId(Reach(st, events[..|events| - 1]), events[|events| - 1]);
    }
  }

  /** A run that has made its calls up to step `k` and then failed. */
  lemma {:induction false} FailAfterCalling(id: Identity, k: nat) returns (st: State)
    ensures st.id == id && Reached(st) && st.status == Failed && SentFresh(st, k)
    ensures st.rows != map[] && NoPending(st.rows) && !st.swept && st.approvals == {}
  {
    var st0 := Initial(id);
    assert Reach(st0, []) == st0 && NoSweep([]) && Reached(st0);
    var st1, g := ClaimAndLoad(st0, st0);
    var st2 := CallsTo(st0, st1, g, 0, k);
    var st3 := OneCall(st0, st2, g, k);
    assert Onward(st1, st3) && SentFresh(st3, k);
    LeadsReached(st0, st3);
    st := Fail(st3, g);
  }

  lemma {:induction false} Fail(st0: State, g: nat) returns (st: State)
    requires Reached(st0) && Fenced(st0, g) && g in st0.executions
    ensures Reached(st) && st.status == Failed && st.rows == st0.rows && st.sends == st0.sends && st.id == st0.id
    ensures st.swept == st0.swept && st.approvals == st0.approvals
  {
    st := ReachedStep(st0, Finish(g, Failed));
  }

  lemma {:induction false} CheckThenSweep(st0: State) returns (st: State)
    requires Reached(st0) && st0.status == Failed && st0.rows != map[] && NoPending(st0.rows) && !st0.swept
    ensures Reached(st) && st.id == st0.id && st.sends == st0.sends && st.swept && st.rows == map[]
    ensures Acts(st, st.generation) && !StaleReReplay(st.log)
  {
    var st1 := ReachedStep(st0, CheckReReplay(st0.generation));
    st := ReachedStep(st1, Sweep);
    ReachedInv(st0);
    ReachedLog(st);
  }
}
