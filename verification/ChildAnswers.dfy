/**
 What each child call answers and records, in terms of what it observed: past the history by the state
 of the children, and over a record by the record alone.
 */
module ChildAnswers {
  import opened EventTable
  import opened RunIds
  import opened ChildCalls

  /** The call appended exactly this record, stamped with the clock, and wrote it at its step. */
  predicate Recorded(s: Session, s': Session, rec: Row) {
    && s'.history == s.history + [rec] && s'.stepCount == s.stepCount + 1 && s'.nowMs == rec.createdAt
    && s'.rows.Keys == s.rows.Keys + {s.stepCount} && RowAfter(s.rows, s.stepCount, rec, s'.rows[s.stepCount])
    && (forall k :: k in s.rows && k != s.stepCount ==> s'.rows[k] == s.rows[k])
  }

  /** The call touched nothing durable. */
  predicate Untouched(s: Session, s': Session) {
    s'.rows == s.rows && s'.children == s.children && s'.history == s.history
  }

  /** The call consumed exactly the record it stood at. */
  predicate Consumed(s: Session, s': Session)
    requires HasRecord(s)
  {
    && Untouched(s, s') && s'.stepCount == s.stepCount + 1
    && s'.nowMs == (var at := s.history[s.stepCount].createdAt; if at > 0 then at else s.nowMs)
  }

  // ---- Starting a child ------------------------------------------------------------------------

  /** A start names one of four close policies, the blank one included, or it is refused. */
  predicate Accepted(policy: string) {
    policy in {"", "TERMINATE", "ABANDON", "REQUEST_CANCEL"}
  }

  /** Past the history a start is refused for its policy or by the store, suspended while the worker
      stops, or starts one child; only then is anything written: the child and its record together. */
  lemma {:induction false} StartAnswers(s: Session, policy: string, w: World)
    requires !HasRecord(s)
    ensures var (s', a) := StartCall(s, policy, w);
            && (a == Refused <==> !Accepted(policy) || (!w.stopping && w.start.StartFails?))
            && (a == Suspended <==> Accepted(policy) && w.stopping)
            && (a.Started? <==> Accepted(policy) && !w.stopping && w.start.Starts?)
            && (!a.Started? ==> Untouched(s, s') && s'.stepCount == s.stepCount && s'.nowMs == s.nowMs)
            && (a.Started? ==>
                  && a.runID == w.start.runID && s'.children == s.children + [a.runID]
                  && StartRecorded(s, s', a.runID, w.clock))
  {
  }

  /** A start's row is inserted unless its step is taken, open or not. */
  predicate StartRecorded(s: Session, s': Session, runID: string, clock: nat) {
    var rec := Row(ChildWorkflow, runID, "", "", "", "", "", clock);
    && s'.history == s.history + [rec] && s'.stepCount == s.stepCount + 1 && s'.nowMs == clock
    && s'.rows == if s.stepCount in s.rows then s.rows else s.rows[s.stepCount := rec]
  }

  /** Over a record a start answers with its run id, or diverges and consumes nothing. */
  lemma {:induction false} RecordedStartAnswers(s: Session, policy: string, w: World)
    requires HasRecord(s)
    ensures var (s', a) := StartCall(s, policy, w);
            var rec := s.history[s.stepCount];
            if rec.kind == ChildWorkflow then a == Started(rec.runID) && Consumed(s, s') else a == Diverged && s' == s
  {
  }

  // ---- Awaiting one child ----------------------------------------------------------------------

  /** The record of an await: a result goes to the response, a failure to the error. */
  function AwaitRecord(runID: string, r: Reading, at: nat): Row {
    Row(AwaitChild, runID, "", if r.Done? then r.result else "",
        if r.Failed? || r.Unreadable? then r.message else "", "", "", at)
  }

  /** Without a settled record an await returns a result exactly of a child that is done, an error exactly
      of one that failed or cannot be read, and suspends exactly while it runs; what it tells the guest is
      what it records. */
  lemma {:induction false} AwaitAnswers(s: Session, runID: string, w: World)
    requires !HasSettledAwait(s)
    ensures var (s', a) := AwaitCall(s, runID, w);
            && (forall text :: a == Returned(text) <==> w.read(runID) == Done(text))
            && (forall text :: a == Errored(text) <==> w.read(runID) == Failed(text) || w.read(runID) == Unreadable(text))
            && (a == Suspended <==> w.read(runID).Running?)
            && s'.suspended == (s.suspended || w.read(runID).Running?) && s'.children == s.children
            && Recorded(s, s', AwaitRecord(runID, w.read(runID), Max(w.clock, s.nowMs)))
  {
    RecordEventRecords(ExitReplay(s), AwaitRecord(runID, w.read(runID), 0), w.clock);
  }

  /** A settled record answers with its own text, its error if it has one. */
  lemma {:induction false} RecordedAwaitAnswers(s: Session, runID: string, w: World)
    requires HasSettledAwait(s)
    ensures var (s', a) := AwaitCall(s, runID, w);
            var rec := s.history[s.stepCount];
            if rec.kind != AwaitChild then a == Diverged && s' == s
            else Consumed(s, s') && a == if rec.error != "" then Errored(rec.error) else Returned(rec.response)
  {
  }

  // ---- Awaiting several ------------------------------------------------------------------------

  /** The outcome of a settled child: its result or its error, under its own id. */
  predicate Reports(o: Outcome, runID: string, r: Reading) {
    && o.runID == runID && !r.Running?
    && (r.Done? ==> o.result == r.result && o.error == "")
    && (r.Failed? || r.Unreadable? ==> o.result == "" && o.error == r.message)
  }

  lemma {:induction false} RecordEventRecords(s: Session, row: Row, clock: nat)
    ensures Recorded(s, RecordEvent(s, row, clock), row.(createdAt := Max(clock, s.nowMs)))
    ensures Recorded(s, RecordEvent(s, row, clock).(suspended := true), row.(createdAt := Max(clock, s.nowMs)))
  {
    UpsertWrites(s.rows, s.stepCount, row.(createdAt := Max(clock, s.nowMs)));
  }

  lemma {:induction false} SortedSame(ids: seq<string>)
    ensures Ascending(Sort(ids)) && forall id :: id in ids <==> id in Sort(ids)
  {
    SortSorts(ids);
    forall id ensures id in ids <==> id in Sort(ids) { assert id in multiset(ids) <==> id in multiset(Sort(ids)); }
  }

  /** Past the history an await-any is refused for a malformed request and suspended exactly while all
      its children run. A resumed one leaves no second suspend record. */
  lemma {:induction false} AnySuspends(json: Json, s: Session, ids: string, resumed: bool, w: World)
    ensures var (s', a) := FreshAny(json, s, ids, resumed, w);
            && (a == Refused <==> json.ids(ids).Malformed?) && (a == Refused ==> s' == s)
            && (a == Suspended <==> json.ids(ids).Ids? && forall id :: id in json.ids(ids).ids ==> w.read(id).Running?)
            && (a == Suspended && resumed ==> s' == s.(suspended := true))
            && (a == Suspended && !resumed ==>
                  s'.suspended && Recorded(s, s', Row(AwaitAnyChild, "", ids, "", "", "", "", Max(w.clock, s.nowMs))))
            && (a.Refused? || a.Suspended? || a.Returned?) && s'.children == s.children
  {
    if json.ids(ids).Ids? {
      SortedSame(json.ids(ids).ids);
      RecordEventRecords(s, Blank(AwaitAnyChild).(request := ids), w.clock);
      var order := Sort(json.ids(ids).ids);
      var i := FirstSettled(order, w.read);
      if i < |order| { assert order[i] in order; }
    }
  }

  /** Otherwise it returns and records the outcome of one child that does not run, before which in the
      order of ids all run. */
  lemma {:induction false} AnyReturns(json: Json, s: Session, ids: string, resumed: bool, w: World)
    returns (win: string, o: Outcome)
    requires FreshAny(json, s, ids, resumed, w).1.Returned?
    ensures json.ids(ids).Ids? && win in json.ids(ids).ids && Reports(o, win, w.read(win))
    ensures forall id :: id in json.ids(ids).ids && id != win && Leq(id, win) ==> w.read(id).Running?
    ensures FreshAny(json, s, ids, resumed, w).1 == Returned(json.one(o))
    ensures Recorded(s, FreshAny(json, s, ids, resumed, w).0,
                     Row(AwaitAnyChild, "", ids, json.one(o), "", "", "", Max(w.clock, s.nowMs)))
  {
    var order := Sort(json.ids(ids).ids);
    SortedSame(json.ids(ids).ids);
    var i := FirstSettled(order, w.read);
    win := order[i];
    o := OutcomeOf(win, w.read(win));
    RecordEventRecords(s, Blank(AwaitAnyChild).(request := ids, response := json.one(o)), w.clock);
    forall id | id in json.ids(ids).ids && id != win && Leq(id, win) ensures w.read(id).Running? {
      BeforeWinner(order, i, id);
    }
  }

  lemma {:induction false} BeforeWinner(order: seq<string>, i: nat, id: string)
    requires Ascending(order) && i < |order| && id in order && id != order[i] && Leq(id, order[i])
    ensures id in order[..i]
  {
    var k :| 0 <= k < |order| && order[k] == id;
    if k > i { LeqAntisymmetric(id, order[i]); }
  }

  /** Past the history an await-all is refused for a malformed request and suspended exactly while one of
      its children runs. */
  lemma {:induction false} AllSuspends(json: Json, s: Session, ids: string, w: World)
    ensures var (s', a) := FreshAll(json, s, ids, w);
            && (a == Refused <==> json.ids(ids).Malformed?) && (a == Refused ==> s' == s)
            && (a == Suspended <==> json.ids(ids).Ids? && exists id :: id in json.ids(ids).ids && w.read(id).Running?)
            && (a == Suspended ==>
                  s'.suspended && Recorded(s, s', Row(AwaitAllChildren, "", ids, "", "", "", "", Max(w.clock, s.nowMs))))
            && (a.Refused? || a.Suspended? || a.Returned?) && s'.children == s.children
  {
    RecordEventRecords(s, Blank(AwaitAllChildren).(request := ids), w.clock);
  }

  /** Otherwise it returns and records every outcome, in the order of the request. */
  lemma {:induction false} AllReturns(json: Json, s: Session, ids: string, w: World) returns (os: seq<Outcome>)
    requires FreshAll(json, s, ids, w).1.Returned?
    ensures json.ids(ids).Ids? && |os| == |json.ids(ids).ids|
    ensures forall i :: 0 <= i < |os| ==> Reports(os[i], json.ids(ids).ids[i], w.read(json.ids(ids).ids[i]))
    ensures FreshAll(json, s, ids, w).1 == Returned(json.many(os))
    ensures Recorded(s, FreshAll(json, s, ids, w).0,
                     Row(AwaitAllChildren, "", ids, json.many(os), "", "", "", Max(w.clock, s.nowMs)))
  {
    os := Outcomes(json.ids(ids).ids, w.read);
    RecordEventRecords(s, Blank(AwaitAllChildren).(request := ids, response := json.many(os)), w.clock);
  }

  /** A settled await-all answers with its own text exactly when the request is the recorded one. */
  lemma {:induction false} RecordedAllAnswers(json: Json, s: Session, ids: string, w: World)
    requires HasRecord(s) && !(s.history[s.stepCount].kind == AwaitAllChildren && s.history[s.stepCount].response == "")
    ensures var (s', a) := AllCall(json, s, ids, w);
            var rec := s.history[s.stepCount];
            && Consumed(s, s')
            && a == if rec.kind == AwaitAllChildren && rec.request == ids then Returned(rec.response) else Diverged
  {
  }

  // ---- An await-any over its records -------------------------------------------------------------

  /** The records from `from` to `to` are suspend records of an await-any of these children. */
  predicate SuspendedSince(json: Json, history: seq<Row>, from: nat, to: nat, request: string) {
    from <= to <= |history| &&
    forall i :: from <= i < to ==>
      history[i].kind == AwaitAnyChild && history[i].response == "" && SameChildren(json.ids, history[i].request, request)
  }

  /** Consuming stops at the first record that is a result for these children, which it takes, or that is
      not one of theirs, which it leaves. */
  lemma {:induction false} ConsumesUpTo(json: Json, s: Session, request: string) returns (q: nat)
    requires s.stepCount <= |s.history|
    ensures SuspendedSince(json, s.history, s.stepCount, q, request)
    ensures var (s', text) := ConsumeAny(json, s, request);
            && Untouched(s, s') && s'.suspended == s.suspended && s'.isReplay == s.isReplay
            && var mine := q < |s.history| && s.history[q].kind == AwaitAnyChild
                           && SameChildren(json.ids, s.history[q].request, request);
               && text == (if mine then s.history[q].response else "") && s'.stepCount == (if mine then q + 1 else q)
               && (mine ==> text != "")
    decreases |s.history| - s.stepCount
  {
    q := s.stepCount;
    if q < |s.history| {
      var rec := s.history[q];
      if rec.kind == AwaitAnyChild && SameChildren(json.ids, rec.request, request) && rec.response == "" {
        q := ConsumesUpTo(json, Advance(s, rec), request);
      }
    }
  }

  /** Over a record an await-any diverges from any other kind, answers with a result, and over a suspend
      record answers with the first result its children have after it, or goes on as a resumed await. */
  lemma {:induction false} RecordedAnyAnswers(json: Json, s: Session, ids: string, w: World) returns (q: nat)
    requires HasRecord(s) && !s.suspended
    ensures var (s', a) := AnyCall(json, s, ids, w);
            var rec := s.history[s.stepCount];
            if rec.kind != AwaitAnyChild then a == Diverged && s' == s
            else if rec.response != "" then a == Returned(rec.response) && Consumed(s, s')
            else
              && SuspendedSince(json, s.history, s.stepCount + 1, q, rec.request)
              && if q < |s.history| && s.history[q].kind == AwaitAnyChild
                    && SameChildren(json.ids, s.history[q].request, rec.request)
                 then a == Returned(s.history[q].response) && Untouched(s, s') && s'.stepCount == q + 1
                 else exists clock ::
                        (s', a) == FreshAny(json, s.(isReplay := false, stepCount := q, nowMs := clock), ids, true, w)
  {
    var rec := s.history[s.stepCount];
    q := ConsumesUpTo(json, Advance(s, rec), rec.request);
    var (t, text) := ConsumeAny(json, Advance(s, rec), rec.request);
    if rec.kind == AwaitAnyChild && rec.response == "" && text == "" {
      assert ExitReplay(t) == s.(isReplay := false, stepCount := q, nowMs := t.nowMs);
    }
  }
}
