/**
 Runs in which replay is not exact: a child that settles with blank text, a refused call that the
 guest goes on after, and a poll after a resumed await, whose row keeps the time of its suspension.
 Then what an await-any and an await-all answer.
 */
module ReplayEdges {
  import opened EventTable
  import opened RunIds
  import opened ChildCalls
  import opened Journals
  import opened ReplayDeterminism

  /** One call of a wake. */
  lemma {:induction false} CallOnce(json: Json, guest: Guest, start: Session, worlds: nat -> World,
                                    s: Session, answers: seq<Answer>, s': Session, a: Answer)
    requires Run(json, guest, start, worlds, |answers|) == Pause(guest, s, answers)
    requires guest(answers).Ask? && !a.Suspended?
    requires Call(json, s, guest(answers).request, worlds(|answers|)) == (s', a)
    ensures Run(json, guest, start, worlds, |answers + [a]|) == Pause(guest, s', answers + [a])
  {
  }

  /** The wakes of a run of two. */
  lemma {:induction false} TwoWakes(json: Json, guest: Guest, seedMs: nat, first: Wake, second: Wake, h: seq<Row>)
    returns (segs: seq<Segment>)
    requires Run(json, guest, Begin([], [], seedMs), first.worlds, first.calls).session.rows == Table(h)
    ensures IsRun(json, guest, seedMs, [first, second], segs)
    ensures segs[0] == Run(json, guest, Begin([], [], seedMs), first.worlds, first.calls)
    ensures segs[1] == Run(json, guest, Begin(h, segs[0].session.children, seedMs), second.worlds, second.calls)
  {
    segs := RunExists(json, guest, seedMs, [first, second]);
    LoadTable([]);
    LoadTable(h);
    assert Table([]) == map[] && [first, second][0] == first && [first, second][1] == second;
  }

  // ---- Blank results -----------------------------------------------------------------------

  /** A settled child read by await-child is answered from its row on replay exactly when its
      text is not blank; a blank one sends the session back to fresh calls at that step. */
  lemma {:induction false} SettledAwaitReplays(s: Session, s': Session, runID: string, w: World, w': World)
    requires !s.isReplay && s.stepCount !in s.rows && !w.read(runID).Running?
    requires var (live, a) := AwaitCall(s, runID, w);
             s'.isReplay && s'.stepCount == s.stepCount < |s'.history| && s'.history[s.stepCount] == live.rows[s.stepCount]
    ensures var (replayed, a') := AwaitCall(s', runID, w');
            && (replayed.isReplay <==> OutcomeText(w.read(runID)) != "")
            && (replayed.isReplay ==> a' == AwaitCall(s, runID, w).1 && replayed.rows == s'.rows)
  {
  }

  function OutcomeText(r: Reading): string {
    match r
    case Done(t) => t
    case Failed(t) => t
    case Unreadable(t) => t
    case Running => ""
  }

  /** Every child has returned blank text; the call numbered `i` would start the child `id(i)`. */
  function BlankWorlds(id: nat -> string): nat -> World {
    (i: nat) => World(_ => Done(""), _ => Unknown, Starts(id(i)), false, 1)
  }

  function StartAwaitStart(answers: seq<Answer>): Next {
    if |answers| == 0 || |answers| == 2 then Ask(StartChild("f", "", ""))
    else if |answers| == 1 then Ask(Await("a"))
    else Finish
  }

  function FirstIds(i: nat): string { if i == 0 then "a" else "b" }

  function BlankRows(): seq<Row> {
    var start := Blank(ChildWorkflow).(createdAt := 1);
    [start.(runID := "a"), Blank(AwaitChild).(runID := "a", createdAt := 1), start.(runID := "b")]
  }

  lemma {:induction false} BlankFirstWake(json: Json)
    ensures var seg := Run(json, StartAwaitStart, Begin([], [], 1), BlankWorlds(FirstIds), 3);
            && seg.answers == [Started("a"), Returned(""), Started("b")]
            && seg.session.rows == Table(BlankRows()) && seg.session.children == ["a", "b"]
  {
    var worlds := BlankWorlds(FirstIds);
    var s0 := Begin([], [], 1);
    var s1 := StartAtomically(s0, "a", 1);
    var s2 := RecordEvent(s1, Blank(AwaitChild).(runID := "a"), 1);
    var s3 := StartAtomically(s2, "b", 1);
    BlankFirstRows();
    CallOnce(json, StartAwaitStart, s0, worlds, s0, [], s1, Started("a"));
    CallOnce(json, StartAwaitStart, s0, worlds, s1, [Started("a")], s2, Returned(""));
    CallOnce(json, StartAwaitStart, s0, worlds, s2, [Started("a"), Returned("")], s3, Started("b"));
  }

  lemma {:induction false} BlankFirstRows()
    ensures var s3 := StartAtomically(RecordEvent(StartAtomically(Begin([], [], 1), "a", 1),
                                                  Blank(AwaitChild).(runID := "a"), 1), "b", 1);
            s3.rows == Table(BlankRows()) && s3.children == ["a", "b"]
  {
  }

  lemma {:induction false} BlankSecondWake(json: Json)
    ensures var seg := Run(json, StartAwaitStart, Begin(BlankRows(), ["a", "b"], 1), BlankWorlds(_ => "c"), 3);
            seg.answers == [Started("a"), Returned(""), Started("c")] && seg.session.children == ["a", "b", "c"]
  {
    var worlds := BlankWorlds(_ => "c");
    var s0 := Begin(BlankRows(), ["a", "b"], 1);
    var s1 := s0.(stepCount := 1);
    var s2 := RecordEvent(ExitReplay(s1), Blank(AwaitChild).(runID := "a"), 1);
    var s3 := StartAtomically(s2, "c", 1);
    CallOnce(json, StartAwaitStart, s0, worlds, s0, [], s1, Started("a"));
    CallOnce(json, StartAwaitStart, s0, worlds, s1, [Started("a")], s2, Returned(""));
    CallOnce(json, StartAwaitStart, s0, worlds, s2, [Started("a"), Returned("")], s3, Started("c"));
  }

  /** A child that returns blank text lets the next wake start the following child again: the
      second wake is told of run "c" where the first was told of run "b", and both exist. */
  lemma {:induction false} BlankResultStartsTwice(json: Json) returns (segs: seq<Segment>)
    ensures IsRun(json, StartAwaitStart, 1, [Wake(BlankWorlds(FirstIds), 3), Wake(BlankWorlds(_ => "c"), 3)], segs)
    ensures segs[0].answers == [Started("a"), Returned(""), Started("b")]
    ensures segs[1].answers == [Started("a"), Returned(""), Started("c")]
    ensures segs[1].session.children == ["a", "b", "c"]
  {
    BlankFirstWake(json);
    BlankSecondWake(json);
    segs := TwoWakes(json, StartAwaitStart, 1, Wake(BlankWorlds(FirstIds), 3), Wake(BlankWorlds(_ => "c"), 3),
                     BlankRows());
  }

  // ---- Refused calls -----------------------------------------------------------------------

  function RefusedThenStart(answers: seq<Answer>): Next {
    if |answers| == 0 then Ask(StartChild("f", "", "UNKNOWN"))
    else if |answers| == 1 then Ask(StartChild("g", "", ""))
    else Finish
  }

  function Starting(id: string): nat -> World {
    _ => World(_ => Running, _ => Unknown, Starts(id), false, 1)
  }

  lemma {:induction false} RefusedFirstWake(json: Json, row: Row)
    requires row == Blank(ChildWorkflow).(runID := "a", createdAt := 1)
    ensures var seg := Run(json, RefusedThenStart, Begin([], [], 1), Starting("a"), 2);
            seg.answers == [Refused, Started("a")] && seg.session.rows == Table([row]) && seg.session.children == ["a"]
  {
    var s0 := Begin([], [], 1);
    var s1 := StartAtomically(s0, "a", 1);
    assert s1.rows == Table([row]);
    CallOnce(json, RefusedThenStart, s0, Starting("a"), s0, [], s0, Refused);
    CallOnce(json, RefusedThenStart, s0, Starting("a"), s0, [Refused], s1, Started("a"));
  }

  lemma {:induction false} RefusedSecondWake(json: Json, row: Row)
    requires row == Blank(ChildWorkflow).(runID := "a", createdAt := 1)
    ensures var seg := Run(json, RefusedThenStart, Begin([row], ["a"], 1), Starting("b"), 2);
            seg.answers == [Started("a"), Started("b")] && seg.session.children == ["a", "b"]
  {
    var s0 := Begin([row], ["a"], 1);
    var s1 := s0.(stepCount := 1);
    var s2 := StartAtomically(ExitReplay(s1), "b", 1);
    CallOnce(json, RefusedThenStart, s0, Starting("b"), s0, [], s1, Started("a"));
    CallOnce(json, RefusedThenStart, s0, Starting("b"), s1, [Started("a")], s2, Started("b"));
  }

  /** The refused start takes the answer of the start after it, which is then made again. */
  lemma {:induction false} RefusedStartShiftsAnswers(json: Json) returns (segs: seq<Segment>)
    ensures IsRun(json, RefusedThenStart, 1, [Wake(Starting("a"), 2), Wake(Starting("b"), 2)], segs)
    ensures segs[0].answers == [Refused, Started("a")] && segs[1].answers == [Started("a"), Started("b")]
    ensures segs[1].session.children == ["a", "b"]
  {
    var row := Blank(ChildWorkflow).(runID := "a", createdAt := 1);
    RefusedFirstWake(json, row);
    RefusedSecondWake(json, row);
    segs := TwoWakes(json, RefusedThenStart, 1, Wake(Starting("a"), 2), Wake(Starting("b"), 2), [row]);
  }

  // ---- Polls -------------------------------------------------------------------------------

  function AwaitThenPoll(answers: seq<Answer>): Next {
    if |answers| == 0 then Ask(Await("x")) else if |answers| == 1 then Ask(Poll("y")) else Finish
  }

  /** Child "x" is running. */
  function Early(clock: nat): nat -> World {
    _ => World(_ => Running, _ => Unknown, StartFails(""), false, clock)
  }

  /** Child "x" has returned, and child "y" completed at `at`. */
  function Late(clock: nat, at: nat): nat -> World {
    _ => World(_ => Done("r"), _ => At(at), StartFails(""), false, clock)
  }

  function AwaitRow(at: nat, response: string): Row {
    Blank(AwaitChild).(runID := "x", response := response, createdAt := at)
  }

  lemma {:induction false} SuspendsFirst(json: Json, t0: nat)
    requires 0 < t0
    ensures var seg := Run(json, AwaitThenPoll, Begin([], [], 1), Early(t0), 1);
            seg.ending == Slept && seg.answers == [] && seg.session.rows == Table([AwaitRow(t0, "")])
            && seg.session.children == []
  {
    var s := RecordEvent(Begin([], [], 1), Blank(AwaitChild).(runID := "x"), t0);
    assert s.rows == Table([AwaitRow(t0, "")]);
    assert Run(json, AwaitThenPoll, Begin([], [], 1), Early(t0), 0) == Pause(AwaitThenPoll, Begin([], [], 1), []);
  }

  lemma {:induction false} ResumesAndPolls(json: Json, t0: nat, t1: nat, at: nat)
    requires 0 < t0 < at <= t1
    ensures var seg := Run(json, AwaitThenPoll, Begin([AwaitRow(t0, "")], [], 1), Late(t1, at), 2);
            && seg.answers == [Returned("r"), Status(Completed("r"))]
            && seg.session.rows == Table([AwaitRow(t0, "r")]) && seg.session.children == []
  {
    var s0 := Begin([AwaitRow(t0, "")], [], 1);
    var s1 := RecordEvent(ExitReplay(s0), Blank(AwaitChild).(runID := "x", response := "r"), t1);
    assert s1.rows == Table([AwaitRow(t0, "r")]) && s1.nowMs == t1;
    CallOnce(json, AwaitThenPoll, s0, Late(t1, at), s0, [], s1, Returned("r"));
    CallOnce(json, AwaitThenPoll, s0, Late(t1, at), s1, [Returned("r")], s1, Status(Completed("r")));
  }

  lemma {:induction false} ReplaysAndPolls(json: Json, t0: nat, t2: nat, at: nat)
    requires 0 < t0 < at
    ensures var seg := Run(json, AwaitThenPoll, Begin([AwaitRow(t0, "r")], [], 1), Late(t2, at), 2);
            seg.answers == [Returned("r"), Status(StillRunning)]
  {
    var s0 := Begin([AwaitRow(t0, "r")], [], 1);
    var s1 := s0.(stepCount := 1, nowMs := t0);
    CallOnce(json, AwaitThenPoll, s0, Late(t2, at), s0, [], s1, Returned("r"));
    CallOnce(json, AwaitThenPoll, s0, Late(t2, at), s1, [Returned("r")], s1, Status(StillRunning));
  }

  /** A parent suspends on a child at `t0` and resumes at `t1`. For every other child that completed in
      between, the poll after the await says completed, and on every later wake running. */
  lemma {:induction false} PollAfterResumedAwaitChanges(json: Json, t0: nat, at: nat, t1: nat, t2: nat)
    returns (segs: seq<Segment>)
    requires 0 < t0 < at <= t1
    ensures IsRun(json, AwaitThenPoll, 1, [Wake(Early(t0), 1), Wake(Late(t1, at), 2), Wake(Late(t2, at), 2)], segs)
    ensures segs[1].answers == [Returned("r"), Status(Completed("r"))]
    ensures segs[2].answers == [Returned("r"), Status(StillRunning)]
  {
    SuspendsFirst(json, t0);
    ResumesAndPolls(json, t0, t1, at);
    ReplaysAndPolls(json, t0, t2, at);
    segs := ThreeWakes(json, AwaitThenPoll, 1, Wake(Early(t0), 1), Wake(Late(t1, at), 2), Wake(Late(t2, at), 2),
                       [AwaitRow(t0, "")], [AwaitRow(t0, "r")]);
  }

  lemma {:induction false} ThreeWakes(json: Json, guest: Guest, seedMs: nat, first: Wake, second: Wake, third: Wake,
                                      h: seq<Row>, h': seq<Row>)
    returns (segs: seq<Segment>)
    requires var seg := Run(json, guest, Begin([], [], seedMs), first.worlds, first.calls);
             && seg.session.rows == Table(h) && seg.session.children == []
             && Run(json, guest, Begin(h, [], seedMs), second.worlds, second.calls).session.rows == Table(h')
    ensures IsRun(json, guest, seedMs, [first, second, third], segs)
    ensures segs[1] == Run(json, guest, Begin(h, [], seedMs), second.worlds, second.calls)
    ensures segs[2] == Run(json, guest, Begin(h', segs[1].session.children, seedMs), third.worlds, third.calls)
  {
    segs := RunExists(json, guest, seedMs, [first, second, third]);
    LoadTable([]);
    LoadTable(h);
    LoadTable(h');
    assert Table([]) == map[];
    assert [first, second, third][0] == first && [first, second, third][1] == second && [first, second, third][2] == third;
  }

  // ---- Await-all -----------------------------------------------------------------------------

  /** An await-all over well-formed ids suspends exactly while some named child is running. Otherwise
      its answer lists every named child in the order named, with its result or its error, never both. */
  lemma {:induction false} AwaitAllListsEveryChild(json: Json, s: Session, ids: string, w: World)
    requires json.ids(ids).Ids?
    ensures FreshAll(json, s, ids, w).1 == Suspended <==> exists id :: id in json.ids(ids).ids && w.read(id).Running?
    ensures FreshAll(json, s, ids, w).1 != Suspended ==>
              exists os :: FreshAll(json, s, ids, w).1 == Returned(json.many(os)) && Lists(os, json.ids(ids).ids, w.read)
  {
    if FreshAll(json, s, ids, w).1 != Suspended {
      assert Lists(Outcomes(json.ids(ids).ids, w.read), json.ids(ids).ids, w.read);
    }
  }

  predicate Lists(os: seq<Outcome>, ids: seq<string>, read: string -> Reading) {
    && |os| == |ids|
    && (forall i :: 0 <= i < |ids| ==>
          && os[i].runID == ids[i]
          && (read(ids[i]).Done? ==> os[i].result == read(ids[i]).result && os[i].error == "")
          && (read(ids[i]).Failed? || read(ids[i]).Unreadable? ==> os[i].error == read(ids[i]).message && os[i].result == ""))
  }

  // ---- Await-any ---------------------------------------------------------------------------

  /** The winner of an await-any does not depend on the order the guest named the children in. */
  lemma {:induction false} WinnerIgnoresOrder(json: Json, s: Session, a: string, b: string, resumed: bool, w: World)
    requires json.ids(a).Ids? && json.ids(b).Ids? && multiset(json.ids(a).ids) == multiset(json.ids(b).ids)
    ensures FreshAny(json, s, a, resumed, w).1 == FreshAny(json, s, b, resumed, w).1
  {
    SortIsCanonical(json.ids(a).ids, json.ids(b).ids);
  }

  /** It is the least settled id, and the answer is pending exactly when all are running. */
  lemma {:induction false} WinnerIsLeastSettled(json: Json, s: Session, ids: string, resumed: bool, w: World,
                                                id: string)
    requires json.ids(ids).Ids? && id in json.ids(ids).ids && !w.read(id).Running?
    ensures exists win :: win in json.ids(ids).ids && !w.read(win).Running? && Leq(win, id)
              && FreshAny(json, s, ids, resumed, w).1 == Returned(json.one(OutcomeOf(win, w.read(win))))
  {
    var order := Sort(json.ids(ids).ids);
    SortSorts(json.ids(ids).ids);
    var i := FirstSettled(order, w.read);
    SettledBefore(order, w.read, id);
    assert order[i] in multiset(json.ids(ids).ids);
  }

  lemma {:induction false} SettledBefore(order: seq<string>, read: string -> Reading, id: string)
    requires Ascending(order) && id in multiset(order) && !read(id).Running?
    ensures FirstSettled(order, read) < |order| && Leq(order[FirstSettled(order, read)], id)
  {
    var k :| 0 <= k < |order| && order[k] == id;
    LeqTotal(id, id);
  }
}
