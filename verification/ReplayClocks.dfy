/**
 What is answered without a record: refused calls and polls. For each of them, the exact condition
 under which a later wake is answered the same. A poll is judged by the virtual clock, so the second
 half says what that clock is whenever a call is made again.
 */
module ReplayClocks {
  import opened EventTable
  import opened ChildCalls
  import opened Journals
  import opened ReplayDeterminism

  // ---- The clock of one wake -------------------------------------------------------------------

  /** The time of the last of these records, or the seed if none carries a time. */
  function ClockAfter(rows: seq<Row>, seedMs: nat): nat {
    if rows == [] then seedMs
    else if rows[|rows| - 1].createdAt > 0 then rows[|rows| - 1].createdAt
    else ClockAfter(rows[..|rows| - 1], seedMs)
  }

  /** The last row written in this wake carries the clock, unless it was there before. */
  predicate Stamps(rows: map<nat, Row>, s: Session) {
    s.stepCount > 0 &&
    var last := s.stepCount - 1;
    last in s.rows && s.rows[last].createdAt == if last in rows then rows[last].createdAt else s.nowMs
  }

  /** A session that began with these rows, on its way: until it records, its clock is that of the
      records it has consumed. */
  predicate InTime(rows: map<nat, Row>, history: seq<Row>, seedMs: nat, s: Session) {
    && TableAdvances(rows, s.rows) && (forall x :: x in s.rows ==> x in rows || x < s.stepCount)
    && |history| <= |s.history| && (s.isReplay ==> |s.history| == |history|)
    && (|s.history| == |history| ==>
          s.history == history && s.stepCount <= |history| && s.nowMs == ClockAfter(history[..s.stepCount], seedMs))
    && (|s.history| > |history| ==> Stamps(rows, s))
  }

  lemma {:induction false} AdvanceInTime(rows: map<nat, Row>, history: seq<Row>, seedMs: nat, s: Session)
    requires InTime(rows, history, seedMs, s) && HasRecord(s)
    ensures InTime(rows, history, seedMs, Advance(s, s.history[s.stepCount]))
  {
    var n := s.stepCount;
    assert history[..n + 1][..n] == history[..n];
  }

  lemma {:induction false} ConsumeInTime(json: Json, rows: map<nat, Row>, history: seq<Row>, seedMs: nat, s: Session,
                                         request: string)
    requires InTime(rows, history, seedMs, s) && s.isReplay
    ensures InTime(rows, history, seedMs, ConsumeAny(json, s, request).0)
    decreases |s.history| - s.stepCount
  {
    if HasRecord(s) {
      AdvanceInTime(rows, history, seedMs, s);
      ConsumeInTime(json, rows, history, seedMs, Advance(s, s.history[s.stepCount]), request);
    }
  }

  lemma {:induction false} RecordInTime(rows: map<nat, Row>, history: seq<Row>, seedMs: nat, s: Session, row: Row,
                                        clock: nat)
    requires InTime(rows, history, seedMs, s) && !s.isReplay
    ensures InTime(rows, history, seedMs, RecordEvent(s, row, clock))
    ensures InTime(rows, history, seedMs, RecordEvent(s, row, clock).(suspended := true))
  {
  }

  lemma {:induction false} StartInTime(rows: map<nat, Row>, history: seq<Row>, seedMs: nat, s: Session, policy: string,
                                       w: World)
    requires InTime(rows, history, seedMs, s)
    ensures InTime(rows, history, seedMs, StartCall(s, policy, w).0)
  {
    if HasRecord(s) { AdvanceInTime(rows, history, seedMs, s); }
  }

  lemma {:induction false} AwaitInTime(rows: map<nat, Row>, history: seq<Row>, seedMs: nat, s: Session, runID: string,
                                       w: World)
    requires InTime(rows, history, seedMs, s)
    ensures InTime(rows, history, seedMs, AwaitCall(s, runID, w).0)
  {
    if HasRecord(s) { AdvanceInTime(rows, history, seedMs, s); }
    var s0, row := ExitReplay(s), Blank(AwaitChild).(runID := runID);
    match w.read(runID)
    case Unreadable(m) => RecordInTime(rows, history, seedMs, s0, row.(error := m), w.clock);
    case Failed(m) => RecordInTime(rows, history, seedMs, s0, row.(error := m), w.clock);
    case Done(r) => RecordInTime(rows, history, seedMs, s0, row.(response := r), w.clock);
    case Running => RecordInTime(rows, history, seedMs, s0, row, w.clock);
  }

  lemma {:induction false} FreshAnyInTime(json: Json, rows: map<nat, Row>, history: seq<Row>, seedMs: nat, s: Session,
                                          ids: string, resumed: bool, w: World)
    requires InTime(rows, history, seedMs, s) && !s.isReplay
    ensures InTime(rows, history, seedMs, FreshAny(json, s, ids, resumed, w).0)
  {
    var row := Blank(AwaitAnyChild).(request := ids);
    var (s', a) := FreshAny(json, s, ids, resumed, w);
    if a.Returned? {
      RecordInTime(rows, history, seedMs, s, row.(response := a.text), w.clock);
    } else {
      RecordInTime(rows, history, seedMs, s, row, w.clock);
    }
  }

  lemma {:induction false} AnyInTime(json: Json, rows: map<nat, Row>, history: seq<Row>, seedMs: nat, s: Session,
                                     ids: string, w: World)
    requires InTime(rows, history, seedMs, s)
    ensures InTime(rows, history, seedMs, AnyCall(json, s, ids, w).0)
  {
    if HasRecord(s) {
      var rec := s.history[s.stepCount];
      AdvanceInTime(rows, history, seedMs, s);
      ConsumeInTime(json, rows, history, seedMs, Advance(s, rec), rec.request);
      FreshAnyInTime(json, rows, history, seedMs, ExitReplay(ConsumeAny(json, Advance(s, rec), rec.request).0), ids, true, w);
    } else {
      FreshAnyInTime(json, rows, history, seedMs, ExitReplay(s), ids, false, w);
    }
  }

  lemma {:induction false} AllInTime(json: Json, rows: map<nat, Row>, history: seq<Row>, seedMs: nat, s: Session,
                                     ids: string, w: World)
    requires InTime(rows, history, seedMs, s)
    ensures InTime(rows, history, seedMs, AllCall(json, s, ids, w).0)
  {
    if HasRecord(s) { AdvanceInTime(rows, history, seedMs, s); }
    var s0, row := ExitReplay(s), Blank(AwaitAllChildren).(request := ids);
    RecordInTime(rows, history, seedMs, s0, row, w.clock);
    if json.ids(ids).Ids? {
      var text := json.many(Outcomes(json.ids(ids).ids, w.read));
      RecordInTime(rows, history, seedMs, s0, row.(response := text), w.clock);
    }
  }

  lemma {:induction false} CallInTime(json: Json, rows: map<nat, Row>, history: seq<Row>, seedMs: nat, s: Session,
                                      req: Request, w: World)
    requires InTime(rows, history, seedMs, s)
    ensures InTime(rows, history, seedMs, Call(json, s, req, w).0)
  {
    match req
    case StartChild(_, _, policy) => StartInTime(rows, history, seedMs, s, policy, w);
    case Await(runID) => AwaitInTime(rows, history, seedMs, s, runID, w);
    case AwaitAny(ids) => AnyInTime(json, rows, history, seedMs, s, ids, w);
    case AwaitAll(ids) => AllInTime(json, rows, history, seedMs, s, ids, w);
    case Poll(_) =>
  }

  /** The clock of any wake over any history, after any number of calls. */
  lemma {:induction false} WakeInTime(json: Json, guest: Guest, history: seq<Row>, children: seq<string>, seedMs: nat,
                                      worlds: nat -> World, calls: nat)
    returns (seg: Segment)
    ensures seg == Run(json, guest, Begin(history, children, seedMs), worlds, calls)
    ensures InTime(Table(history), history, seedMs, seg.session)
  {
    if calls == 0 {
      seg := Pause(guest, Begin(history, children, seedMs), []);
      assert history[..0] == [];
    } else {
      var before := WakeInTime(json, guest, history, children, seedMs, worlds, calls - 1);
      seg := Continue(json, guest, before, worlds(calls - 1));
      if before.ending.Lost? && guest(before.answers).Ask? {
        CallInTime(json, Table(history), history, seedMs, before.session, guest(before.answers).request,
                   worlds(calls - 1));
      }
    }
  }

  // ---- Rows keep their time ----------------------------------------------------------------------

  /** One conditional write at most, of a row no older than the clock. */
  ghost predicate WritesOnce(s: Session, s': Session, clock: nat) {
    s'.rows == s.rows || exists k, row: Row :: row.createdAt >= clock && s'.rows == Upsert(s.rows, k, row)
  }

  lemma {:induction false} RecordWritesOnce(s: Session, row: Row, clock: nat)
    ensures WritesOnce(s, RecordEvent(s, row, clock), clock)
    ensures WritesOnce(s, RecordEvent(s, row, clock).(suspended := true), clock)
  {
    var stamped := row.(createdAt := Max(clock, s.nowMs));
    assert stamped.createdAt >= clock && RecordEvent(s, row, clock).rows == Upsert(s.rows, s.stepCount, stamped);
  }

  lemma {:induction false} StartWritesOnce(s: Session, policy: string, w: World)
    ensures WritesOnce(s, StartCall(s, policy, w).0, w.clock)
  {
    if w.start.Starts? && s.stepCount !in s.rows {
      var row := Blank(ChildWorkflow).(runID := w.start.runID, createdAt := w.clock);
      assert s.rows[s.stepCount := row] == Upsert(s.rows, s.stepCount, row);
    }
  }

  lemma {:induction false} AwaitWritesOnce(s: Session, runID: string, w: World)
    ensures WritesOnce(s, AwaitCall(s, runID, w).0, w.clock)
  {
    var s0, row := ExitReplay(s), Blank(AwaitChild).(runID := runID);
    match w.read(runID)
    case Unreadable(m) => RecordWritesOnce(s0, row.(error := m), w.clock);
    case Failed(m) => RecordWritesOnce(s0, row.(error := m), w.clock);
    case Done(r) => RecordWritesOnce(s0, row.(response := r), w.clock);
    case Running => RecordWritesOnce(s0, row, w.clock);
  }

  lemma {:induction false} FreshAnyWritesOnce(json: Json, s: Session, ids: string, resumed: bool, w: World)
    ensures WritesOnce(s, FreshAny(json, s, ids, resumed, w).0, w.clock)
  {
    var row, a := Blank(AwaitAnyChild).(request := ids), FreshAny(json, s, ids, resumed, w).1;
    RecordWritesOnce(s, row, w.clock);
    if a.Returned? { RecordWritesOnce(s, row.(response := a.text), w.clock); }
  }

  lemma {:induction false} AnyWritesOnce(json: Json, s: Session, ids: string, w: World)
    ensures WritesOnce(s, AnyCall(json, s, ids, w).0, w.clock)
  {
    if HasRecord(s) {
      var rec := s.history[s.stepCount];
      ConsumeWritesNothing(json, Advance(s, rec), rec.request);
      FreshAnyWritesOnce(json, ExitReplay(ConsumeAny(json, Advance(s, rec), rec.request).0), ids, true, w);
    } else {
      FreshAnyWritesOnce(json, ExitReplay(s), ids, false, w);
    }
  }

  lemma {:induction false} AllWritesOnce(json: Json, s: Session, ids: string, w: World)
    ensures WritesOnce(s, AllCall(json, s, ids, w).0, w.clock)
  {
    var s0, row := ExitReplay(s), Blank(AwaitAllChildren).(request := ids);
    RecordWritesOnce(s0, row, w.clock);
    if json.ids(ids).Ids? {
      RecordWritesOnce(s0, row.(response := json.many(Outcomes(json.ids(ids).ids, w.read))), w.clock);
    }
  }

  lemma {:induction false} CallWritesOnce(json: Json, s: Session, req: Request, w: World)
    ensures WritesOnce(s, Call(json, s, req, w).0, w.clock)
  {
    match req
    case StartChild(_, _, policy) => StartWritesOnce(s, policy, w);
    case Await(runID) => AwaitWritesOnce(s, runID, w);
    case AwaitAny(ids) => AnyWritesOnce(json, s, ids, w);
    case AwaitAll(ids) => AllWritesOnce(json, s, ids, w);
    case Poll(_) =>
  }

  lemma {:induction false} ConsumeWritesNothing(json: Json, s: Session, request: string)
    ensures ConsumeAny(json, s, request).0.rows == s.rows
    decreases |s.history| - s.stepCount
  {
    if s.stepCount < |s.history| { ConsumeWritesNothing(json, Advance(s, s.history[s.stepCount]), request); }
  }

  /** Every record carries a time. */
  predicate Timed(rows: map<nat, Row>) {
    forall x :: x in rows ==> rows[x].createdAt > 0
  }

  /** What a wake does to the table: rows keep their time, and new ones carry one. */
  lemma {:induction false} WritesAdvance(s: Session, s': Session, clock: nat)
    requires WritesOnce(s, s', clock)
    ensures TableAdvances(s.rows, s'.rows) && (Timed(s.rows) && clock > 0 ==> Timed(s'.rows))
  {
  }

  lemma {:induction false} WakeAdvances(json: Json, guest: Guest, s: Session, worlds: nat -> World, n: nat, calls: nat)
    returns (seg1: Segment, seg: Segment)
    requires n <= calls && forall i :: worlds(i).clock > 0
    ensures seg1 == Run(json, guest, s, worlds, n) && seg == Run(json, guest, s, worlds, calls)
    ensures TableAdvances(seg1.session.rows, seg.session.rows)
    ensures Timed(seg1.session.rows) ==> Timed(seg.session.rows)
    decreases calls
  {
    if n == calls {
      seg1, seg := Run(json, guest, s, worlds, n), Run(json, guest, s, worlds, n);
    } else {
      var before;
      seg1, before := WakeAdvances(json, guest, s, worlds, n, calls - 1);
      var w := worlds(calls - 1);
      seg := Continue(json, guest, before, w);
      if before.ending.Lost? && guest(before.answers).Ask? {
        CallWritesOnce(json, before.session, guest(before.answers).request, w);
        WritesAdvance(before.session, Call(json, before.session, guest(before.answers).request, w).0, w.clock);
      }
    }
  }
}
