/**
 The child workflow calls of an execution session: start, await one, await any, await all and
 poll. A session replays its recorded history from the top and, past its end, runs fresh and
 records. Each call is specified by a function on session values; the class at the end of the
 file carries the calls out in place and is proved equal to those functions.
 */
module ChildCalls {
  import opened EventTable
  import opened RunIds

  datatype Outcome = Outcome(runID: string, result: string, error: string)

  /** The JSON library: parsing a list of run ids and rendering outcomes. */
  datatype Json = Json(
    ids: string -> Parsed,
    one: Outcome -> string,
    many: seq<Outcome> -> string)

  /** A rendered object or list is never the empty text. */
  ghost predicate Renders(json: Json) {
    && (forall o :: json.one(o) != "")
    && (forall os :: json.many(os) != "")
  }

  /** What the store says about a child: not settled, settled, or no answer. */
  datatype Reading = Running | Done(result: string) | Failed(message: string) | Unreadable(message: string)

  /** When the store says a child settled. */
  datatype Instant = At(ms: nat) | Unknown | NoAnswer(message: string)

  datatype Start = Starts(runID: string) | StartFails(message: string)

  /** Everything outside the session that one call can observe. */
  datatype World = World(
    read: string -> Reading,
    completedAt: string -> Instant,
    start: Start,
    stopping: bool,
    clock: nat)

  datatype Request =
    | StartChild(name: string, input: string, policy: string)
    | Await(runID: string)
    | AwaitAny(ids: string)
    | AwaitAll(ids: string)
    | Poll(runID: string)

  datatype Polled = StillRunning | Completed(result: string) | ChildFailed(error: string) | HostError(message: string)

  /** What a call hands the guest. Refused answers are errors that record nothing. */
  datatype Answer =
    | Started(runID: string)
    | Returned(text: string)
    | Errored(text: string)
    | Suspended
    | Diverged
    | Refused
    | Status(polled: Polled)

  datatype Session = Session(
    isReplay: bool,
    stepCount: nat,
    history: seq<Row>,
    rows: map<nat, Row>,
    children: seq<string>,
    nowMs: nat,
    suspended: bool)

  function Blank(kind: Kind): Row {
    Row(kind, "", "", "", "", "", "", 0)
  }

  function Max(a: nat, b: nat): nat {
    if a < b then b else a
  }

  predicate ValidPolicy(policy: string) {
    policy == "" || policy == "TERMINATE" || policy == "ABANDON" || policy == "REQUEST_CANCEL"
  }

  // ---- Bookkeeping -----------------------------------------------------------------------

  function ExitReplay(s: Session): Session {
    s.(isReplay := false)
  }

  /** Consume one recorded event; the virtual clock follows its timestamp. */
  function Advance(s: Session, rec: Row): Session {
    s.(stepCount := s.stepCount + 1,
       nowMs := if rec.createdAt > 0 then rec.createdAt else s.nowMs)
  }

  /** Record a fresh event at the current step. The timestamp is floored at the virtual clock. */
  function RecordEvent(s: Session, row: Row, clock: nat): Session {
    var stamped := row.(createdAt := Max(clock, s.nowMs));
    s.(nowMs := stamped.createdAt,
       history := s.history + [stamped],
       stepCount := s.stepCount + 1,
       rows := Upsert(s.rows, s.stepCount, stamped))
  }

  predicate HasRecord(s: Session) {
    s.isReplay && s.stepCount < |s.history|
  }

  // ---- Starting a child ------------------------------------------------------------------

  /** One transaction inserts the child and, unless the step is taken, the parent's event. */
  function StartAtomically(s: Session, runID: string, clock: nat): Session {
    var row := Blank(ChildWorkflow).(runID := runID, createdAt := clock);
    s.(children := s.children + [runID],
       rows := if s.stepCount in s.rows then s.rows else s.rows[s.stepCount := row],
       history := s.history + [row],
       nowMs := clock,
       stepCount := s.stepCount + 1)
  }

  function FreshStart(s: Session, policy: string, w: World): (Session, Answer) {
    if !ValidPolicy(policy) then (s, Refused)
    else if w.stopping then (s, Suspended)
    else match w.start
      case StartFails(_) => (s, Refused)
      case Starts(runID) => (StartAtomically(s, runID, w.clock), Started(runID))
  }

  function StartCall(s: Session, policy: string, w: World): (Session, Answer) {
    if HasRecord(s) then
      var rec := s.history[s.stepCount];
      if rec.kind == ChildWorkflow then (Advance(s, rec), Started(rec.runID)) else (s, Diverged)
    else FreshStart(ExitReplay(s), policy, w)
  }

  // ---- Awaiting one child ----------------------------------------------------------------

  function FreshAwait(s: Session, runID: string, w: World): (Session, Answer) {
    var row := Blank(AwaitChild).(runID := runID);
    match w.read(runID)
    case Unreadable(m) => (RecordEvent(s, row.(error := m), w.clock), Errored(m))
    case Failed(m) => (RecordEvent(s, row.(error := m), w.clock), Errored(m))
    case Done(r) => (RecordEvent(s, row.(response := r), w.clock), Returned(r))
    case Running => (RecordEvent(s, row, w.clock).(suspended := true), Suspended)
  }

  /** The record the session stands at answers an await, or is not an await at all. */
  predicate HasSettledAwait(s: Session) {
    HasRecord(s) &&
    var rec := s.history[s.stepCount]; rec.kind != AwaitChild || rec.response != "" || rec.error != ""
  }

  /** Unless a settled row was there before, the row holds the answer: a result as its response, an error
      as its error, and neither while the child runs. */
  predicate StoredAwait(before: map<nat, Row>, rows: map<nat, Row>, step: nat, a: Answer) {
    (step in before ==> Open(before[step])) ==>
      && step in rows && rows[step].kind == AwaitChild
      && rows[step].response == (if a.Returned? then a.text else "")
      && rows[step].error == (if a.Errored? then a.text else "")
  }

  function AwaitCall(s: Session, runID: string, w: World): (Session, Answer) {
    if HasRecord(s) then
      var rec := s.history[s.stepCount];
      if rec.kind != AwaitChild then (s, Diverged)
      else if rec.response != "" || rec.error != "" then
        (Advance(s, rec), if rec.error != "" then Errored(rec.error) else Returned(rec.response))
      else FreshAwait(ExitReplay(s), runID, w)
    else FreshAwait(ExitReplay(s), runID, w)
  }

  // ---- Awaiting any child ----------------------------------------------------------------

  /** The records after a suspend record that belong to the same call, up to its result. */
  function ConsumeAny(json: Json, s: Session, request: string): (Session, string)
    decreases |s.history| - s.stepCount
  {
    if s.stepCount >= |s.history| then (s, "")
    else
      var rec := s.history[s.stepCount];
      if rec.kind != AwaitAnyChild || !SameChildren(json.ids, rec.request, request) then (s, "")
      else if rec.response != "" then (Advance(s, rec), rec.response)
      else ConsumeAny(json, Advance(s, rec), request)
  }

  function OutcomeOf(runID: string, r: Reading): Outcome {
    match r
    case Done(result) => Outcome(runID, result, "")
    case Failed(m) => Outcome(runID, "", m)
    case Unreadable(m) => Outcome(runID, "", m)
    case Running => Outcome(runID, "", "child not completed")
  }

  /** The index of the first id whose child is not running, or the length when all are. */
  function FirstSettled(ids: seq<string>, read: string -> Reading): (i: nat)
    ensures i <= |ids|
    ensures forall j :: 0 <= j < i ==> read(ids[j]).Running?
    ensures i < |ids| ==> !read(ids[i]).Running?
  {
    if ids == [] || !read(ids[0]).Running? then 0
    else
      var i := 1 + FirstSettled(ids[1..], read);
      assert forall j :: 0 < j < |ids| ==> ids[j] == ids[1..][j - 1];
      i
  }

  function FreshAny(json: Json, s: Session, ids: string, resumed: bool, w: World): (Session, Answer) {
    var parsed := json.ids(ids);
    if parsed.Malformed? then (s, Refused)
    else
      var order := Sort(parsed.ids);
      var i := FirstSettled(order, w.read);
      var row := Blank(AwaitAnyChild).(request := ids);
      if i < |order| then
        var text := json.one(OutcomeOf(order[i], w.read(order[i])));
        (RecordEvent(s, row.(response := text), w.clock), Returned(text))
      else
        ((if resumed then s else RecordEvent(s, row, w.clock)).(suspended := true), Suspended)
  }

  function AnyCall(json: Json, s: Session, ids: string, w: World): (Session, Answer) {
    if s.suspended then (s, Suspended)
    else if HasRecord(s) then
      var rec := s.history[s.stepCount];
      if rec.kind != AwaitAnyChild then (s, Diverged)
      else if rec.response != "" then (Advance(s, rec), Returned(rec.response))
      else
        var (s', text) := ConsumeAny(json, Advance(s, rec), rec.request);
        if text != "" then (s', Returned(text))
        else FreshAny(json, ExitReplay(s'), ids, true, w)
    else FreshAny(json, ExitReplay(s), ids, false, w)
  }

  // ---- Awaiting all children -------------------------------------------------------------

  function Outcomes(ids: seq<string>, read: string -> Reading): (os: seq<Outcome>)
    ensures |os| == |ids|
  {
    seq(|ids|, i requires 0 <= i < |ids| => OutcomeOf(ids[i], read(ids[i])))
  }

  predicate AnyRunning(ids: seq<string>, read: string -> Reading) {
    exists i :: 0 <= i < |ids| && read(ids[i]).Running?
  }

  function FreshAll(json: Json, s: Session, ids: string, w: World): (Session, Answer) {
    var parsed := json.ids(ids);
    var row := Blank(AwaitAllChildren).(request := ids);
    if parsed.Malformed? then (s, Refused)
    else if AnyRunning(parsed.ids, w.read) then
      (RecordEvent(s, row, w.clock).(suspended := true), Suspended)
    else
      var text := json.many(Outcomes(parsed.ids, w.read));
      (RecordEvent(s, row.(response := text), w.clock), Returned(text))
  }

  function AllCall(json: Json, s: Session, ids: string, w: World): (Session, Answer) {
    if HasRecord(s) then
      var rec := s.history[s.stepCount];
      if rec.kind == AwaitAllChildren && rec.response == "" then FreshAll(json, ExitReplay(s), ids, w)
      else if rec.kind != AwaitAllChildren || ids != rec.request then (Advance(s, rec), Diverged)
      else (Advance(s, rec), Returned(rec.response))
    else FreshAll(json, ExitReplay(s), ids, w)
  }

  // ---- Polling a child -------------------------------------------------------------------

  const NO_COMPLETION_TIME := "child is complete but has no completion timestamp"

  /** A poll records nothing: its answer is the child's status as of the virtual clock. */
  function StatusAt(nowMs: nat, r: Reading, at: Instant): Polled {
    if r.Unreadable? then HostError(r.message)
    else if r.Running? then StillRunning
    else match at
      case NoAnswer(m) => HostError(m)
      case Unknown => ChildFailed(NO_COMPLETION_TIME)
      case At(t) =>
        if t > nowMs then StillRunning
        else if r.Failed? then ChildFailed(r.message)
        else Completed(r.result)
  }

  function Call(json: Json, s: Session, req: Request, w: World): (Session, Answer) {
    match req
    case StartChild(_, _, policy) => StartCall(s, policy, w)
    case Await(runID) => AwaitCall(s, runID, w)
    case AwaitAny(ids) => AnyCall(json, s, ids, w)
    case AwaitAll(ids) => AllCall(json, s, ids, w)
    case Poll(runID) => (s, Status(StatusAt(s.nowMs, w.read(runID), w.completedAt(runID))))
  }

  // ---- The session in place --------------------------------------------------------------

  class ExecSession {
    const json: Json
    var isReplay: bool
    var stepCount: nat
    var history: seq<Row>
    var rows: map<nat, Row>
    var children: seq<string>
    var nowMs: nat
    var suspended: bool

    ghost function View(): Session
      reads this
    {
      Session(isReplay, stepCount, history, rows, children, nowMs, suspended)
    }

    constructor (json: Json, history: seq<Row>, rows: map<nat, Row>, children: seq<string>, seedMs: nat)
      ensures this.json == json
      ensures View() == Session(history != [], 0, history, rows, children, seedMs, false)
    {
      this.json := json;
      isReplay := history != [];
      stepCount := 0;
      this.history := history;
      this.rows := rows;
      this.children := children;
      nowMs := seedMs;
      suspended := false;
    }

    /** Consuming a record moves on by one step, and the clock to the record's time if it has one. No
        record is written and no child touched. */
    method AdvanceReplayStep(rec: Row)
      modifies this
      ensures View() == Advance(old(View()), rec)
      ensures rec.createdAt > 0 ==> nowMs == rec.createdAt
      ensures rows == old(rows) && history == old(history) && children == old(children)
    {
      stepCount := stepCount + 1;
      if rec.createdAt > 0 {
        nowMs := rec.createdAt;
      }
    }

    /** A fresh record never moves the virtual clock back, carries the clock's new time, and writes no
        row but that of its step; there it fills a gap or completes an open row, and a settled row
        stays as it was. */
    method Record(rec: Row, clock: nat)
      modifies this
      ensures View() == RecordEvent(old(View()), rec, clock)
      ensures nowMs >= old(nowMs) && nowMs >= clock && history[|history| - 1].createdAt == nowMs
      ensures TableAdvances(old(rows), rows) && rows.Keys == old(rows).Keys + {old(stepCount)}
      ensures old(stepCount) !in old(rows) ==> rows[old(stepCount)] == rec.(createdAt := nowMs)
    {
      var stamped := rec.(createdAt := clock);
      if stamped.createdAt < nowMs {
        stamped := stamped.(createdAt := nowMs);
      }
      nowMs := stamped.createdAt;
      history := history + [stamped];
      rows := Upsert(rows, stepCount, stamped);
      stepCount := stepCount + 1;
    }

    method ChildWorkflow(policy: string, w: World) returns (a: Answer)
      modifies this
      ensures (View(), a) == StartCall(old(View()), policy, w)
    {
      if isReplay {
        if stepCount < |history| {
          var rec := history[stepCount];
          if rec.kind == Kind.ChildWorkflow {
            AdvanceReplayStep(rec);
            return Started(rec.runID);
          }
          return Diverged;
        }
        isReplay := false;
      }
      if !ValidPolicy(policy) {
        return Refused;
      }
      if w.stopping {
        return Suspended;
      }
      match w.start
      case StartFails(_) =>
        a := Refused;
      case Starts(runID) =>
        var rec := Blank(Kind.ChildWorkflow).(runID := runID, createdAt := w.clock);
        children := children + [runID];
        if stepCount !in rows {
          rows := rows[stepCount := rec];
        }
        history := history + [rec];
        nowMs := rec.createdAt;
        stepCount := stepCount + 1;
        a := Started(runID);
    }

    /** Without a settled record the guest is told, and the row stores, a result exactly of a child that is
        done, an error exactly of one that failed or cannot be read, and nothing exactly while it runs. */
    method AwaitChild(runID: string, w: World) returns (a: Answer)
      modifies this
      ensures (View(), a) == AwaitCall(old(View()), runID, w)
      ensures !old(HasSettledAwait(View())) ==>
                && (forall text :: a == Returned(text) <==> w.read(runID) == Done(text))
                && (forall text :: a == Errored(text) <==> w.read(runID) == Failed(text) || w.read(runID) == Unreadable(text))
                && (a == Suspended <==> w.read(runID).Running?) && (a == Suspended ==> suspended)
      ensures !old(HasSettledAwait(View())) ==> StoredAwait(old(rows), rows, old(stepCount), a)
    {
      if isReplay {
        if stepCount < |history| {
          var rec := history[stepCount];
          if rec.kind == Kind.AwaitChild {
            if rec.response != "" || rec.error != "" {
              AdvanceReplayStep(rec);
              if rec.error != "" {
                return Errored(rec.error);
              }
              return Returned(rec.response);
            }
            isReplay := false;
          } else {
            return Diverged;
          }
        } else {
          isReplay := false;
        }
      }
      a := AwaitFresh(runID, w);
    }

    /** The fresh half of an await: read the child and record what it says. */
    method AwaitFresh(runID: string, w: World) returns (a: Answer)
      modifies this
      ensures (View(), a) == FreshAwait(old(View()), runID, w)
      ensures forall text :: a == Returned(text) <==> w.read(runID) == Done(text)
      ensures forall text :: a == Errored(text) <==> w.read(runID) == Failed(text) || w.read(runID) == Unreadable(text)
      ensures (a == Suspended <==> w.read(runID).Running?) && (a == Suspended ==> suspended)
      ensures StoredAwait(old(rows), rows, old(stepCount), a)
    {
      var rec := Blank(Kind.AwaitChild).(runID := runID);
      var out := w.read(runID);
      if out.Unreadable? || out.Failed? {
        Record(rec.(error := out.message), w.clock);
        return Errored(out.message);
      }
      if out.Done? {
        Record(rec.(response := out.result), w.clock);
        return Returned(out.result);
      }
      Record(rec, w.clock);
      suspended := true;
      return Suspended;
    }

    /** Consumes the records that follow a suspend record of the same call. */
    method ReplayAny(request: string) returns (text: string)
      modifies this
      ensures (View(), text) == ConsumeAny(json, old(View()), request)
    {
      while stepCount < |history|
        invariant history == old(history)
        invariant ConsumeAny(json, View(), request) == ConsumeAny(json, old(View()), request)
        decreases |history| - stepCount
      {
        var rec := history[stepCount];
        var same := SameRunIDSet(json.ids, rec.request, request);
        if rec.kind != Kind.AwaitAnyChild || !same {
          break;
        }
        AdvanceReplayStep(rec);
        if rec.response != "" {
          return rec.response;
        }
      }
      return "";
    }

    method AwaitAnyChild(ids: string, w: World) returns (a: Answer)
      modifies this
      ensures (View(), a) == AnyCall(json, old(View()), ids, w)
    {
      var resumedFromSuspend := false;
      if suspended {
        return Suspended;
      }
      if isReplay {
        if stepCount < |history| {
          var rec := history[stepCount];
          if rec.kind != Kind.AwaitAnyChild {
            return Diverged;
          }
          AdvanceReplayStep(rec);
          if rec.response != "" {
            return Returned(rec.response);
          }
          var text := ReplayAny(rec.request);
          if text != "" {
            return Returned(text);
          }
          resumedFromSuspend := true;
          isReplay := false;
        } else {
          isReplay := false;
        }
      }
      a := AwaitAnyFresh(ids, resumedFromSuspend, w);
    }

    method AwaitAnyFresh(ids: string, resumedFromSuspend: bool, w: World) returns (a: Answer)
      modifies this
      ensures (View(), a) == FreshAny(json, old(View()), ids, resumedFromSuspend, w)
    {
      var parsed := json.ids(ids);
      if parsed.Malformed? {
        return Refused;
      }
      var runIDs := Sort(parsed.ids);
      var rec := Blank(Kind.AwaitAnyChild).(request := ids);
      for i := 0 to |runIDs|
        invariant View() == old(View())
        invariant forall j :: 0 <= j < i ==> w.read(runIDs[j]).Running?
      {
        var out := w.read(runIDs[i]);
        if !out.Running? {
          var text := json.one(OutcomeOf(runIDs[i], out));
          Record(rec.(response := text), w.clock);
          return Returned(text);
        }
      }
      if !resumedFromSuspend {
        Record(rec, w.clock);
      }
      suspended := true;
      return Suspended;
    }

    method AwaitAllChildren(ids: string, w: World) returns (a: Answer)
      modifies this
      ensures (View(), a) == AllCall(json, old(View()), ids, w)
    {
      if isReplay && stepCount < |history| {
        var rec := history[stepCount];
        if !(rec.kind == Kind.AwaitAllChildren && rec.response == "") {
          AdvanceReplayStep(rec);
          if rec.kind != Kind.AwaitAllChildren || ids != rec.request {
            return Diverged;
          }
          return Returned(rec.response);
        }
      }
      isReplay := false;
      a := AwaitAllFresh(ids, w);
    }

    method AwaitAllFresh(ids: string, w: World) returns (a: Answer)
      modifies this
      ensures (View(), a) == FreshAll(json, old(View()), ids, w)
    {
      var parsed := json.ids(ids);
      if parsed.Malformed? {
        return Refused;
      }
      var rec := Blank(Kind.AwaitAllChildren).(request := ids);
      var outcomes: seq<Outcome> := [];
      for i := 0 to |parsed.ids|
        invariant View() == old(View())
        invariant outcomes == Outcomes(parsed.ids[..i], w.read)
        invariant forall j :: 0 <= j < i ==> !w.read(parsed.ids[j]).Running?
      {
        var out := w.read(parsed.ids[i]);
        if out.Running? {
          Record(rec, w.clock);
          suspended := true;
          return Suspended;
        }
        outcomes := outcomes + [OutcomeOf(parsed.ids[i], out)];
      }
      assert parsed.ids[..|parsed.ids|] == parsed.ids;
      var text := json.many(outcomes);
      Record(rec.(response := text), w.clock);
      return Returned(text);
    }

    /** A poll records nothing. It says completed or failed exactly of a child that the store reports
        settled no later than the virtual clock, and running of one not settled by then. */
    method PollChild(runID: string, w: World) returns (a: Answer)
      ensures (View(), a) == Call(json, View(), Poll(runID), w)
      ensures a.Status?
      ensures var at := w.completedAt(runID);
              && (w.read(runID).Done? ==>
                    (a.polled == Completed(w.read(runID).result) <==> at.At? && at.ms <= nowMs))
              && (w.read(runID).Failed? && at.At? ==>
                    a.polled == if at.ms <= nowMs then ChildFailed(w.read(runID).message) else StillRunning)
              && (w.read(runID).Running? ==> a.polled == StillRunning)
              && (w.read(runID).Unreadable? ==> a.polled == HostError(w.read(runID).message))
              && (w.read(runID).Done? || w.read(runID).Failed? ==>
                    && (at.NoAnswer? ==> a.polled == HostError(at.message))
                    && (at.Unknown? ==> a.polled == ChildFailed(NO_COMPLETION_TIME))
                    && (at.At? && at.ms > nowMs ==> a.polled == StillRunning))
    {
      var out := w.read(runID);
      if out.Unreadable? {
        return Status(HostError(out.message));
      }
      if out.Running? {
        return Status(StillRunning);
      }
      match w.completedAt(runID)
      case NoAnswer(m) =>
        a := Status(HostError(m));
      case Unknown =>
        a := Status(ChildFailed(NO_COMPLETION_TIME));
      case At(t) =>
        if t > nowMs {
          a := Status(StillRunning);
        } else if out.Failed? {
          a := Status(ChildFailed(out.message));
        } else {
          a := Status(Completed(out.result));
        }
    }
  }
}
