/**
 The journal of a guest: the answers it has been given, the durable rows behind each of them, and
 the rows that a call still pending has left. A refused call and a poll are answered without a row.
 The lemmas say what one call does to a session that stands somewhere in its journal.
 */
module Journals {
  import opened EventTable
  import opened RunIds
  import opened ChildCalls

  datatype Next = Ask(request: Request) | Finish

  /** A guest decides by the answers it has had. */
  type Guest = seq<Answer> -> Next

  /** The table that holds exactly these rows, at steps 0, 1, 2, ... */
  function Table(history: seq<Row>): map<nat, Row> {
    map i: nat | i < |history| :: history[i]
  }

  lemma {:induction false} TableInjective(a: seq<Row>, b: seq<Row>)
    requires Table(a) == Table(b)
    ensures a == b
  {
    assert |a| < |b| ==> |a| in Table(b);
    assert |b| < |a| ==> |b| in Table(a);
    forall i | 0 <= i < |a| ensures a[i] == b[i] {
      assert Table(a)[i] == Table(b)[i];
    }
  }

  lemma {:induction false} TableAppend(h: seq<Row>, r: Row)
    ensures Upsert(Table(h), |h|, r) == Table(h + [r])
    ensures Table(h)[|h| := r] == Table(h + [r])
  {
  }

  lemma {:induction false} TableComplete(h: seq<Row>, r: Row, open: Row)
    requires Open(open)
    ensures Upsert(Table(h + [open]), |h|, r) == Table(h + [Merge(open, r)])
  {
  }

  // ---- Worlds ------------------------------------------------------------------------------

  /** A settled child has some text to report. */
  ghost predicate Sound(w: World) {
    && (forall id :: w.read(id).Done? ==> w.read(id).result != "")
    && (forall id :: w.read(id).Failed? || w.read(id).Unreadable? ==> w.read(id).message != "")
  }

  /** A call that records nothing when it is made past the history is refused. */
  predicate Refuses(json: Json, req: Request, w: World) {
    match req
    case StartChild(_, _, policy) => !ValidPolicy(policy) || (!w.stopping && w.start.StartFails?)
    case AwaitAny(ids) => json.ids(ids).Malformed?
    case AwaitAll(ids) => json.ids(ids).Malformed?
    case _ => false
  }

  // ---- What the durable rows say -----------------------------------------------------------

  predicate Unrecorded(a: Answer) {
    a.Refused? || a.Status?
  }

  /** The calls that some world refuses. */
  predicate Refusable(json: Json, req: Request) {
    match req
    case StartChild(_, _, _) => true
    case AwaitAny(ids) => json.ids(ids).Malformed?
    case AwaitAll(ids) => json.ids(ids).Malformed?
    case _ => false
  }

  /** The rows one answered call occupies. */
  predicate Explains(json: Json, req: Request, a: Answer, rows: seq<Row>) {
    if Unrecorded(a) then rows == [] && a.Status? == req.Poll? && (a.Refused? ==> Refusable(json, req))
    else
      rows != [] &&
      var last := rows[|rows| - 1];
      match req
      case StartChild(_, _, _) => |rows| == 1 && last.kind == ChildWorkflow && a == Started(last.runID)
      case Await(_) =>
        && |rows| == 1 && last.kind == AwaitChild && (last.response != "" || last.error != "")
        && a == (if last.error != "" then Errored(last.error) else Returned(last.response))
      case AwaitAny(ids) =>
        && json.ids(ids).Ids?
        && (forall i :: 0 <= i < |rows| ==> rows[i].kind == AwaitAnyChild && rows[i].request == ids)
        && (forall i :: 0 <= i < |rows| - 1 ==> rows[i].response == "")
        && last.response != "" && a == Returned(last.response)
      case AwaitAll(ids) =>
        && json.ids(ids).Ids?
        && |rows| == 1 && last.kind == AwaitAllChildren && last.request == ids
        && last.response != "" && a == Returned(last.response)
      case Poll(_) => false
  }

  /** The suspend records of an await-any. */
  predicate OpenAny(rows: seq<Row>) {
    rows != [] && forall i :: 0 <= i < |rows| ==> rows[i].kind == AwaitAnyChild && rows[i].response == ""
  }

  /** The record of a suspended await-all. */
  predicate OpenAll(rows: seq<Row>) {
    |rows| == 1 && rows[0].kind == AwaitAllChildren && Open(rows[0])
  }

  /** The rows a call that has not been answered may already have left. */
  predicate OpenFor(json: Json, next: Next, rows: seq<Row>) {
    rows == [] ||
    (next.Ask? &&
     match next.request
     case StartChild(_, _, _) => false
     case Await(_) => |rows| == 1 && rows[0].kind == AwaitChild && Open(rows[0])
     case AwaitAny(ids) =>
       json.ids(ids).Ids? && OpenAny(rows) && forall i :: 0 <= i < |rows| ==> rows[i].request == ids
     case AwaitAll(ids) => json.ids(ids).Ids? && OpenAll(rows) && rows[0].request == ids
     case Poll(_) => false)
  }

  function Flatten(parts: seq<seq<Row>>): seq<Row> {
    if parts == [] then [] else Flatten(parts[..|parts| - 1]) + parts[|parts| - 1]
  }

  /** A journal: the answers given so far, the rows behind each of them, and what the pending
      call has left. */
  datatype Journal = Journal(answers: seq<Answer>, parts: seq<seq<Row>>, open: seq<Row>)

  function Rows(j: Journal): seq<Row> {
    Flatten(j.parts) + j.open
  }

  ghost predicate Explained(json: Json, guest: Guest, answers: seq<Answer>, parts: seq<seq<Row>>) {
    && |answers| == |parts|
    && (answers == [] ||
        var n := |answers| - 1;
        && Explained(json, guest, answers[..n], parts[..n])
        && guest(answers[..n]).Ask?
        && Explains(json, guest(answers[..n]).request, answers[n], parts[n]))
  }

  lemma {:induction false} ExplainedAt(json: Json, guest: Guest, answers: seq<Answer>, parts: seq<seq<Row>>, k: nat)
    requires Explained(json, guest, answers, parts) && k < |answers|
    ensures guest(answers[..k]).Ask? && Explains(json, guest(answers[..k]).request, answers[k], parts[k])
  {
    var n := |answers| - 1;
    if k < n {
      ExplainedAt(json, guest, answers[..n], parts[..n], k);
      assert answers[..n][..k] == answers[..k];
    }
  }

  ghost predicate Valid(json: Json, guest: Guest, j: Journal) {
    Explained(json, guest, j.answers, j.parts) && OpenFor(json, guest(j.answers), j.open)
  }

  /** No await-any call has left more than one suspend record. */
  ghost predicate Tight(j: Journal) {
    && |j.open| <= 1
    && (forall i :: 0 <= i < |j.parts| ==> |j.parts[i]| <= 2)
  }

  /** The run ids of the child_workflow rows, in order. */
  function StartedBy(rows: seq<Row>): seq<string> {
    if rows == [] then []
    else
      var n := |rows| - 1;
      StartedBy(rows[..n]) + (if rows[n].kind == ChildWorkflow then [rows[n].runID] else [])
  }

  lemma {:induction false} StartedByConcat(a: seq<Row>, b: seq<Row>)
    ensures StartedBy(a + b) == StartedBy(a) + StartedBy(b)
  {
    if b == [] {
      assert a + b == a;
    } else {
      var n := |b| - 1;
      StartedByConcat(a, b[..n]);
      assert (a + b)[..|a + b| - 1] == a + b[..n];
    }
  }

  lemma {:induction false} FlattenPrefix(parts: seq<seq<Row>>, k: nat)
    requires k < |parts|
    ensures |Flatten(parts[..k])| + |parts[k]| <= |Flatten(parts)|
    ensures Flatten(parts)[..|Flatten(parts[..k])|] == Flatten(parts[..k])
    ensures Flatten(parts)[|Flatten(parts[..k])|..|Flatten(parts[..k])| + |parts[k]|] == parts[k]
    ensures Flatten(parts[..k + 1]) == Flatten(parts[..k]) + parts[k]
  {
    assert parts[..k + 1][..k] == parts[..k];
    var n := |parts| - 1;
    if k < n {
      FlattenPrefix(parts[..n], k);
      assert parts[..n][..k] == parts[..k];
    }
  }

  /** No call of the journal was refused. */
  predicate Unrefused(j: Journal) {
    Refused !in j.answers
  }

  // ---- Where a session stands in its journal -------------------------------------------------

  predicate RefusedBefore(j: Journal, k: nat) {
    k <= |j.answers| && Refused in j.answers[..k]
  }

  /** `s` is replaying the journal and has come to the call numbered `k`. */
  predicate Reading(j: Journal, k: nat, s: Session)
    requires k <= |j.parts|
  {
    && s.isReplay && !s.suspended && s.history == Rows(j) && s.rows == Table(Rows(j))
    && s.stepCount == |Flatten(j.parts[..k])|
  }

  /** `s` has left replay at or before the call numbered `k`, with no answer recorded from there on. Only
      a refused await that went over the record of a suspended await of its own kind leaves replay
      before that record, or after it. */
  predicate Fresh(j: Journal, k: nat, s: Session)
    requires k <= |j.parts|
  {
    && !s.isReplay && !s.suspended && s.rows == Table(Rows(j))
    && |Flatten(j.parts[..k])| == |Flatten(j.parts)| && (j.open == [] || RefusedBefore(j, k))
    && (|| (s.stepCount == |Flatten(j.parts)| && (j.open == [] || OpenAll(j.open)))
        || (s.stepCount == |Rows(j)| && OpenAny(j.open)))
  }

  predicate StandsAt(j: Journal, k: nat, s: Session)
    requires k <= |j.parts|
  {
    Reading(j, k, s) || Fresh(j, k, s)
  }

  // ---- Calls that are in the journal ---------------------------------------------------------

  /** The record run of one await-any call is consumed up to its result. */
  lemma {:induction false} ConsumeToResult(json: Json, s: Session, request: string, q: nat)
    requires s.stepCount <= q < |s.history|
    requires forall i :: s.stepCount <= i <= q ==>
               s.history[i].kind == AwaitAnyChild && s.history[i].request == request
    requires forall i :: s.stepCount <= i < q ==> s.history[i].response == ""
    requires s.history[q].response != ""
    ensures var (s', text) := ConsumeAny(json, s, request);
            && text == s.history[q].response
            && s' == s.(stepCount := q + 1, nowMs := s'.nowMs)
    decreases q - s.stepCount
  {
    if s.stepCount < q { ConsumeToResult(json, Advance(s, s.history[s.stepCount]), request, q); }
  }

  /** With no result recorded, every suspend record of the call is consumed. */
  lemma {:induction false} ConsumeToEnd(json: Json, s: Session, request: string)
    requires s.stepCount <= |s.history|
    requires forall i :: s.stepCount <= i < |s.history| ==>
               && s.history[i].kind == AwaitAnyChild && s.history[i].request == request
               && s.history[i].response == ""
    ensures var (s', text) := ConsumeAny(json, s, request);
            text == "" && s' == s.(stepCount := |s.history|, nowMs := s'.nowMs)
    decreases |s.history| - s.stepCount
  {
    if s.stepCount < |s.history| { ConsumeToEnd(json, Advance(s, s.history[s.stepCount]), request); }
  }

  lemma {:induction false} PartInHistory(j: Journal, k: nat)
    requires k < |j.parts|
    ensures var n := |Flatten(j.parts[..k])|;
            && n + |j.parts[k]| <= |Rows(j)|
            && (forall i :: n <= i < n + |j.parts[k]| ==> Rows(j)[i] == j.parts[k][i - n])
            && |Flatten(j.parts[..k + 1])| == n + |j.parts[k]|
  {
    FlattenPrefix(j.parts, k);
    var n := |Flatten(j.parts[..k])|;
    forall i | n <= i < n + |j.parts[k]| ensures Rows(j)[i] == j.parts[k][i - n] {
      assert Flatten(j.parts)[n..n + |j.parts[k]|][i - n] == j.parts[k][i - n];
    }
  }

  /** The history holds the records of an answered await-any from its step to its result. */
  lemma {:induction false} AnyRecords(json: Json, j: Journal, k: nat, ids: string)
    requires |j.answers| == |j.parts| && k < |j.parts|
    requires Explains(json, AwaitAny(ids), j.answers[k], j.parts[k]) && !Unrecorded(j.answers[k])
    ensures var n := |Flatten(j.parts[..k])|;
            var q := n + |j.parts[k]| - 1;
            && n <= q < |Rows(j)|
            && (forall i :: n <= i <= q ==> Rows(j)[i].kind == AwaitAnyChild && Rows(j)[i].request == ids)
            && (forall i :: n <= i < q ==> Rows(j)[i].response == "")
            && Rows(j)[q].response != "" && j.answers[k] == Returned(Rows(j)[q].response)
  {
    PartInHistory(j, k);
  }

  /** An answered await-any: its suspend records, if any, and then its result. */
  lemma {:induction false} ReplayAny(json: Json, j: Journal, k: nat, s: Session, ids: string, w: World)
    requires |j.answers| == |j.parts| && k < |j.parts|
    requires Explains(json, AwaitAny(ids), j.answers[k], j.parts[k]) && !Unrecorded(j.answers[k])
    requires Reading(j, k, s)
    ensures var (s', a) := AnyCall(json, s, ids, w);
            && a == j.answers[k]
            && s' == s.(stepCount := s.stepCount + |j.parts[k]|, nowMs := s'.nowMs)
  {
    AnyRecords(json, j, k, ids);
    var q := s.stepCount + |j.parts[k]| - 1;
    if s.stepCount < q { ConsumeToResult(json, Advance(s, s.history[s.stepCount]), ids, q); }
  }

  /** A call whose answer was recorded is answered the same, whatever the children now say, and
      touches nothing durable. */
  lemma {:induction false} RecordedRepeats(json: Json, guest: Guest, j: Journal, k: nat, s: Session, w: World)
    requires Valid(json, guest, j) && k < |j.parts| && StandsAt(j, k, s) && guest(j.answers[..k]).Ask?
    requires !Unrecorded(j.answers[k])
    ensures var (s', a) := Call(json, s, guest(j.answers[..k]).request, w);
            && a == j.answers[k] && !a.Suspended? && Reading(j, k + 1, s')
            && s'.children == s.children && s'.history == s.history
  {
    ExplainedAt(json, guest, j.answers, j.parts, k);
    PartInHistory(j, k);
    FlattenPrefix(j.parts, k);
    var request := guest(j.answers[..k]).request;
    assert s.history[s.stepCount] == j.parts[k][0];
    if request.AwaitAny? { ReplayAny(json, j, k, s, request.ids, w); }
  }

  /** The rows that follow the call numbered `k`. */
  function RowsAfter(j: Journal, k: nat): seq<Row>
    requires k <= |j.parts| && |Flatten(j.parts[..k])| <= |Rows(j)|
  {
    Rows(j)[|Flatten(j.parts[..k])|..]
  }

  lemma {:induction false} FlattenIsPrefix(parts: seq<seq<Row>>, k: nat)
    requires k <= |parts|
    ensures |Flatten(parts[..k])| <= |Flatten(parts)|
    ensures Flatten(parts)[..|Flatten(parts[..k])|] == Flatten(parts[..k])
  {
    if k < |parts| {
      FlattenPrefix(parts, k);
    } else {
      assert parts[..k] == parts;
    }
  }

  /** The next recorded call after `k`, if there is one. */
  lemma {:induction false} NextRecorded(parts: seq<seq<Row>>, k: nat) returns (p: nat)
    requires k <= |parts| && |Flatten(parts[..k])| < |Flatten(parts)|
    ensures k <= p < |parts| && parts[p] != [] && Flatten(parts[..p]) == Flatten(parts[..k])
    decreases |parts| - k
  {
    assert parts[..|parts|] == parts;
    FlattenPrefix(parts, k);
    p := k;
    if parts[k] == [] { p := NextRecorded(parts, k + 1); }
  }

  /** The record of an answered call is no record of a suspended one. */
  lemma {:induction false} SettledIsNotOpen(json: Json, guest: Guest, j: Journal, k: nat, p: nat)
    requires Valid(json, guest, j) && k <= p < |j.parts| && j.parts[p] != []
    requires Flatten(j.parts[..p]) == Flatten(j.parts[..k]) && |Flatten(j.parts[..k])| <= |Rows(j)|
    ensures !OpenAny(RowsAfter(j, k)) && !OpenAll(RowsAfter(j, k))
  {
    ExplainedAt(json, guest, j.answers, j.parts, p);
    PartInHistory(j, p);
    var n := |Flatten(j.parts[..k])|;
    var rows, last := RowsAfter(j, k), |j.parts[p]| - 1;
    assert rows[0] == j.parts[p][0] && rows[last] == j.parts[p][last];
  }

  /** The rows after `k` are records of a suspended await only if the pending call left them. */
  lemma {:induction false} OpenIsPending(json: Json, guest: Guest, j: Journal, k: nat)
    requires Valid(json, guest, j) && k <= |j.parts| && |Flatten(j.parts[..k])| <= |Rows(j)|
    requires OpenAny(RowsAfter(j, k)) || OpenAll(RowsAfter(j, k))
    ensures |Flatten(j.parts[..k])| == |Flatten(j.parts)| && RowsAfter(j, k) == j.open
  {
    FlattenIsPrefix(j.parts, k);
    if |Flatten(j.parts[..k])| < |Flatten(j.parts)| {
      var p := NextRecorded(j.parts, k);
      SettledIsNotOpen(json, guest, j, k, p);
    }
  }

  /** What makes a refused call be refused again by a session that stands at it: nothing was recorded
      after it and it is refused afresh, or all that was recorded after it is the record of a suspended
      await of its own kind. */
  predicate RefusedAgain(json: Json, req: Request, s: Session, w: World) {
    if !HasRecord(s) then Refuses(json, req, w)
    else match req
      case AwaitAny(ids) => json.ids(ids).Malformed? && OpenAny(s.history[s.stepCount..])
      case AwaitAll(ids) => json.ids(ids).Malformed? && OpenAll(s.history[s.stepCount..])
      case _ => false
  }

  lemma {:induction false} RefusedNow(j: Journal, k: nat)
    requires k < |j.answers|
    ensures j.answers[k].Refused? ==> RefusedBefore(j, k + 1)
    ensures RefusedBefore(j, k) ==> RefusedBefore(j, k + 1)
  {
    assert j.answers[..k + 1][k] == j.answers[k];
    assert forall i :: 0 <= i < k ==> j.answers[..k + 1][i] == j.answers[..k][i];
  }

  /** Where a refused await-any leaves a session that is replaying. */
  lemma {:induction false} AnyOverRecord(json: Json, guest: Guest, j: Journal, k: nat, s: Session, ids: string, w: World)
    requires Valid(json, guest, j) && k < |j.parts| && Reading(j, k, s) && HasRecord(s) && json.ids(ids).Malformed?
    requires j.answers[k].Refused?
    ensures var (s', a) := AnyCall(json, s, ids, w);
            && (a == Refused <==> OpenAny(s.history[s.stepCount..]))
            && (a == Refused ==> Fresh(j, k + 1, s') && s'.history == s.history && s'.children == s.children)
  {
    ExplainedAt(json, guest, j.answers, j.parts, k);
    FlattenPrefix(j.parts, k);
    RefusedNow(j, k);
    FlattenIsPrefix(j.parts, k);
    var rows := RowsAfter(j, k);
    assert rows == s.history[s.stepCount..] && rows[0] == s.history[s.stepCount];
    if OpenAny(rows) {
      OpenIsPending(json, guest, j, k);
      AnyOverOpen(json, j, s, ids, w);
    } else if rows[0].kind == AwaitAnyChild && rows[0].response == "" {
      AnyOverSettled(json, guest, j, k, s);
    }
  }

  lemma {:induction false} AnyOverOpen(json: Json, j: Journal, s: Session, ids: string, w: World)
    requires s.isReplay && !s.suspended && s.history == Rows(j) && s.stepCount == |Flatten(j.parts)| < |Rows(j)|
    requires OpenAny(j.open) && json.ids(ids).Malformed?
    requires forall i :: 0 <= i < |j.open| ==> j.open[i].request == j.open[0].request
    ensures var (s', a) := AnyCall(json, s, ids, w);
            a == Refused && s' == s.(isReplay := false, stepCount := |Rows(j)|, nowMs := s'.nowMs)
  {
    var n := s.stepCount;
    assert forall i :: n <= i < |s.history| ==> s.history[i] == j.open[i - n];
    ConsumeToEnd(json, Advance(s, s.history[n]), s.history[n].request);
  }

  /** An answered await-any starts with its suspend records and goes on to its result. */
  lemma {:induction false} AnyOverSettled(json: Json, guest: Guest, j: Journal, k: nat, s: Session)
    requires Valid(json, guest, j) && k <= |j.parts| && Reading(j, k, s) && HasRecord(s)
    requires s.history[s.stepCount].kind == AwaitAnyChild && s.history[s.stepCount].response == ""
    requires !OpenAny(s.history[s.stepCount..])
    ensures var rec := s.history[s.stepCount]; ConsumeAny(json, Advance(s, rec), rec.request).1 != ""
  {
    FlattenIsPrefix(j.parts, k);
    var n := s.stepCount;
    assert Rows(j)[|Flatten(j.parts)|..] == j.open && s.history[n] == s.history[n..][0];
    var p := NextRecorded(j.parts, k);
    ExplainedAt(json, guest, j.answers, j.parts, p);
    PartInHistory(j, p);
    assert s.history[n] == j.parts[p][0];
    AnyRecords(json, j, p, guest(j.answers[..p]).request.ids);
    ConsumeToResult(json, Advance(s, s.history[n]), s.history[n].request, n + |j.parts[p]| - 1);
  }

  /** The same for an await-all. */
  lemma {:induction false} AllOverRecord(json: Json, guest: Guest, j: Journal, k: nat, s: Session, ids: string, w: World)
    requires Valid(json, guest, j) && k < |j.parts| && Reading(j, k, s) && HasRecord(s) && json.ids(ids).Malformed?
    requires j.answers[k].Refused?
    ensures var (s', a) := AllCall(json, s, ids, w);
            && (a == Refused <==> OpenAll(s.history[s.stepCount..]))
            && (a == Refused ==> Fresh(j, k + 1, s') && s'.history == s.history && s'.children == s.children)
  {
    ExplainedAt(json, guest, j.answers, j.parts, k);
    FlattenPrefix(j.parts, k);
    RefusedNow(j, k);
    FlattenIsPrefix(j.parts, k);
    var n := s.stepCount;
    var rows := RowsAfter(j, k);
    assert rows == s.history[n..] && rows[0] == s.history[n];
    if OpenAll(rows) {
      OpenIsPending(json, guest, j, k);
    } else if |Flatten(j.parts[..k])| < |Flatten(j.parts)| {
      var p := NextRecorded(j.parts, k);
      ExplainedAt(json, guest, j.answers, j.parts, p);
      PartInHistory(j, p);
      assert s.history[n] == j.parts[p][0];
    } else {
      assert rows == j.open;
    }
  }

  /** A refused call is refused again exactly under that condition, and then the session stands at the
      next call. */
  lemma {:induction false} RefusalRepeats(json: Json, guest: Guest, j: Journal, k: nat, s: Session, w: World)
    requires Valid(json, guest, j) && k < |j.parts| && StandsAt(j, k, s) && guest(j.answers[..k]).Ask?
    requires j.answers[k].Refused?
    ensures var req := guest(j.answers[..k]).request;
            var (s', a) := Call(json, s, req, w);
            && (a == Refused <==> RefusedAgain(json, req, s, w))
            && (a == Refused ==> StandsAt(j, k + 1, s') && s'.history == s.history && s'.children == s.children)
  {
    ExplainedAt(json, guest, j.answers, j.parts, k);
    RefusedNow(j, k);
    FlattenPrefix(j.parts, k);
    FlattenIsPrefix(j.parts, k);
    var req := guest(j.answers[..k]).request;
    if HasRecord(s) {
      match req
      case AwaitAny(ids) => AnyOverRecord(json, guest, j, k, s, ids, w);
      case AwaitAll(ids) => AllOverRecord(json, guest, j, k, s, ids, w);
      case StartChild(_, _, _) =>
    }
  }

  // ---- The pending call ------------------------------------------------------------------------

  /** The last row of the last answered call carries the time the live session went on with, unless it
      completed a row that was there. */
  predicate Stamped(j: Journal, s': Session, j': Journal) {
    var q := |Flatten(j'.parts)|;
    q > 0 && q <= |Rows(j')| &&
    Rows(j')[q - 1].createdAt == if q - 1 < |Rows(j)| then Rows(j)[q - 1].createdAt else s'.nowMs
  }

  /** What the pending call does to the journal. */
  ghost predicate Extends(json: Json, guest: Guest, j: Journal, s: Session, s': Session, a: Answer, j': Journal) {
    && Valid(json, guest, j')
    && s'.rows == Table(Rows(j'))
    && (Tight(j) && Unrefused(j') ==> Tight(j'))
    && (if a.Suspended? then j'.answers == j.answers && j'.parts == j.parts
        else
          && j'.answers == j.answers + [a]
          && |j'.parts| == |j.parts| + 1 && j'.parts[..|j.parts|] == j.parts
          && StandsAt(j', |j'.parts|, s')
          && (Unrecorded(a) ==> Rows(j') == Rows(j) && s'.history == s.history)
          && (!Unrecorded(a) ==>
                && !s'.isReplay && j'.open == [] && |s'.history| > |s.history|
                && Stamped(j, s', j') && |Rows(j)| <= |Rows(j')|))
  }

  function Answered(j: Journal, a: Answer, rows: seq<Row>): Journal {
    Journal(j.answers + [a], j.parts + [rows], [])
  }

  lemma {:induction false} AnsweredIsValid(json: Json, guest: Guest, j: Journal, a: Answer, rows: seq<Row>)
    requires Valid(json, guest, j) && guest(j.answers).Ask?
    requires Explains(json, guest(j.answers).request, a, rows)
    ensures Valid(json, guest, Answered(j, a, rows))
    ensures Rows(Answered(j, a, rows)) == Flatten(j.parts) + rows == Flatten(j.parts + [rows])
    ensures Tight(j) && |rows| <= 2 ==> Tight(Answered(j, a, rows))
  {
    var j' := Answered(j, a, rows);
    assert j'.parts[..|j.parts|] == j.parts && j'.answers[..|j.parts|] == j.answers;
  }

  /** An answer without a row leaves the session where it stood. */
  lemma {:induction false} AnsweredWithoutRow(json: Json, guest: Guest, j: Journal, a: Answer, s: Session, s': Session)
    returns (j': Journal)
    requires Valid(json, guest, j) && StandsAt(j, |j.parts|, s) && guest(j.answers).Ask? && j.open == []
    requires Unrecorded(a) && Explains(json, guest(j.answers).request, a, [])
    requires s' == s || s' == ExitReplay(s)
    ensures Extends(json, guest, j, s, s', a, j') && Rows(j') == Rows(j)
  {
    j' := Answered(j, a, []);
    AnsweredIsValid(json, guest, j, a, []);
    assert j.parts[..|j.parts|] == j.parts && j'.parts[..|j'.parts|] == j'.parts;
    assert Flatten(j.parts) + [] == Flatten(j.parts) && Rows(j) == Flatten(j.parts);
  }

  lemma {:induction false} PendingStart(json: Json, guest: Guest, j: Journal, s: Session, w: World)
    returns (j': Journal)
    requires Valid(json, guest, j) && StandsAt(j, |j.parts|, s)
    requires guest(j.answers).Ask? && guest(j.answers).request.StartChild?
    ensures var (s', a) := Call(json, s, guest(j.answers).request, w);
            && Extends(json, guest, j, s, s', a, j')
            && s'.children == s.children + (if a.Started? then [a.runID] else [])
            && Rows(j') == Rows(j) + (if a.Started?
                                      then [Blank(ChildWorkflow).(runID := a.runID, createdAt := w.clock)] else [])
  {
    assert j.open == [] && Rows(j) == Flatten(j.parts) && j.parts[..|j.parts|] == j.parts;
    var (s', a) := Call(json, s, guest(j.answers).request, w);
    if a.Refused? {
      j' := AnsweredWithoutRow(json, guest, j, a, s, s');
    } else if a.Suspended? {
      j' := j;
    } else {
      var row := Blank(ChildWorkflow).(runID := w.start.runID, createdAt := w.clock);
      j' := Answered(j, Started(row.runID), [row]);
      AnsweredIsValid(json, guest, j, Started(row.runID), [row]);
      assert j'.parts[..|j'.parts|] == j'.parts;
      TableAppend(Rows(j), row);
    }
  }

  /** The row a fresh record leaves: new, or over the open row at that step. */
  function Stored(open: seq<Row>, s: Session, row: Row, clock: nat): Row {
    var stamped := row.(createdAt := Max(clock, s.nowMs));
    if open == [] then stamped else Merge(open[0], stamped)
  }

  lemma {:induction false} RecordPending(j: Journal, s: Session, row: Row, clock: nat)
    requires s.rows == Table(Rows(j)) && s.stepCount == |Flatten(j.parts)|
    requires j.open == [] || (|j.open| == 1 && Open(j.open[0]))
    ensures RecordEvent(s, row, clock).rows == Table(Flatten(j.parts) + [Stored(j.open, s, row, clock)])
  {
    var f, stamped := Flatten(j.parts), row.(createdAt := Max(clock, s.nowMs));
    if j.open == [] {
      assert Rows(j) == f;
      TableAppend(f, stamped);
    } else {
      assert Rows(j) == f + [j.open[0]];
      TableComplete(f, stamped, j.open[0]);
    }
  }

  /** Rows that start no child leave the list of started children alone. */
  lemma {:induction false} NoNewChild(j: Journal, j': Journal, r: seq<Row>)
    requires Rows(j') == Flatten(j.parts) + r
    requires forall i :: 0 <= i < |r| ==> r[i].kind != ChildWorkflow
    requires forall i :: 0 <= i < |j.open| ==> j.open[i].kind != ChildWorkflow
    ensures StartedBy(Rows(j')) == StartedBy(Rows(j))
  {
    StartedByConcat(Flatten(j.parts), r);
    StartedByConcat(Flatten(j.parts), j.open);
    StartsNothing(r);
    StartsNothing(j.open);
  }

  lemma {:induction false} StartsNothing(r: seq<Row>)
    requires forall i :: 0 <= i < |r| ==> r[i].kind != ChildWorkflow
    ensures StartedBy(r) == []
  {
    if r != [] { StartsNothing(r[..|r| - 1]); }
  }

  /** The pending call is answered by recording one row. */
  lemma {:induction false} AnswerByRecording(json: Json, guest: Guest, j: Journal, s: Session, row: Row, clock: nat,
                                             a: Answer)
    returns (j': Journal)
    requires Valid(json, guest, j) && guest(j.answers).Ask? && !a.Suspended? && !Unrecorded(a)
    requires !s.isReplay && !s.suspended && s.rows == Table(Rows(j)) && s.stepCount == |Flatten(j.parts)|
    requires j.open == [] || (|j.open| == 1 && Open(j.open[0]))
    requires row.kind != ChildWorkflow
    requires Explains(json, guest(j.answers).request, a, [Stored(j.open, s, row, clock)])
    ensures Extends(json, guest, j, s, RecordEvent(s, row, clock), a, j')
    ensures StartedBy(Rows(j')) == StartedBy(Rows(j))
  {
    var stored := Stored(j.open, s, row, clock);
    j' := Answered(j, a, [stored]);
    AnsweredIsValid(json, guest, j, a, [stored]);
    RecordPending(j, s, row, clock);
    assert j'.parts[..|j'.parts|] == j'.parts;
    NoNewChild(j, j', [stored]);
  }

  /** The pending call suspends, leaving one open row. */
  lemma {:induction false} SuspendByRecording(json: Json, guest: Guest, j: Journal, s: Session, row: Row, clock: nat)
    returns (j': Journal)
    requires Valid(json, guest, j)
    requires s.rows == Table(Rows(j)) && s.stepCount == |Flatten(j.parts)|
    requires j.open == [] || (|j.open| == 1 && Open(j.open[0]))
    requires row.kind != ChildWorkflow
    requires OpenFor(json, guest(j.answers), [Stored(j.open, s, row, clock)])
    ensures Extends(json, guest, j, s, RecordEvent(s, row, clock).(suspended := true), Suspended, j')
    ensures StartedBy(Rows(j')) == StartedBy(Rows(j))
  {
    j' := j.(open := [Stored(j.open, s, row, clock)]);
    RecordPending(j, s, row, clock);
    NoNewChild(j, j', j'.open);
  }

  /** A pending call that left no open record of an await-any stands right after the answered ones. */
  lemma {:induction false} PendingStep(j: Journal, s: Session)
    requires StandsAt(j, |j.parts|, s) && !OpenAny(j.open)
    ensures s.stepCount == |Flatten(j.parts)| && s.rows == Table(Rows(j)) && !s.suspended
    ensures HasRecord(s) ==> j.open != [] && s.history[s.stepCount] == j.open[0]
  {
    assert j.parts[..|j.parts|] == j.parts;
  }

  lemma {:induction false} PendingAwait(json: Json, guest: Guest, j: Journal, s: Session, w: World)
    returns (j': Journal)
    requires Valid(json, guest, j) && StandsAt(j, |j.parts|, s) && Sound(w)
    requires guest(j.answers).Ask? && guest(j.answers).request.Await?
    ensures var (s', a) := Call(json, s, guest(j.answers).request, w);
            && Extends(json, guest, j, s, s', a, j')
            && s'.children == s.children && StartedBy(Rows(j')) == StartedBy(Rows(j))
  {
    var runID := guest(j.answers).request.runID;
    var s0 := ExitReplay(s);
    PendingStep(j, s);
    assert Call(json, s, Await(runID), w) == FreshAwait(s0, runID, w);
    var row := Blank(AwaitChild).(runID := runID);
    match w.read(runID)
    case Unreadable(m) => j' := AnswerByRecording(json, guest, j, s0, row.(error := m), w.clock, Errored(m));
    case Failed(m) => j' := AnswerByRecording(json, guest, j, s0, row.(error := m), w.clock, Errored(m));
    case Done(r) => j' := AnswerByRecording(json, guest, j, s0, row.(response := r), w.clock, Returned(r));
    case Running => j' := SuspendByRecording(json, guest, j, s0, row, w.clock);
  }

  lemma {:induction false} PendingAll(json: Json, guest: Guest, j: Journal, s: Session, w: World) returns (j': Journal)
    requires Renders(json) && Valid(json, guest, j) && StandsAt(j, |j.parts|, s)
    requires guest(j.answers).Ask? && guest(j.answers).request.AwaitAll?
    ensures var (s', a) := Call(json, s, guest(j.answers).request, w);
            && Extends(json, guest, j, s, s', a, j')
            && s'.children == s.children && StartedBy(Rows(j')) == StartedBy(Rows(j))
  {
    var ids := guest(j.answers).request.ids;
    var s0 := ExitReplay(s);
    PendingStep(j, s);
    assert Call(json, s, AwaitAll(ids), w) == FreshAll(json, s0, ids, w);
    var row := Blank(AwaitAllChildren).(request := ids);
    if json.ids(ids).Malformed? {
      j' := AnsweredWithoutRow(json, guest, j, Refused, s, s0);
    } else if AnyRunning(json.ids(ids).ids, w.read) {
      j' := SuspendByRecording(json, guest, j, s0, row, w.clock);
    } else {
      var text := json.many(Outcomes(json.ids(ids).ids, w.read));
      j' := AnswerByRecording(json, guest, j, s0, row.(response := text), w.clock, Returned(text));
    }
  }

  /** An await-any is answered after its suspend records, if any, at the next step. */
  lemma {:induction false} AnswerAny(json: Json, guest: Guest, j: Journal, s: Session, ids: string, text: string,
                                     clock: nat)
    returns (j': Journal)
    requires Valid(json, guest, j) && !s.isReplay && !s.suspended && text != "" && json.ids(ids).Ids?
    requires s.rows == Table(Rows(j)) && s.stepCount == |Rows(j)|
    requires guest(j.answers) == Ask(AwaitAny(ids))
    ensures Extends(json, guest, j, s, RecordEvent(s, Blank(AwaitAnyChild).(request := ids, response := text), clock),
                    Returned(text), j')
    ensures StartedBy(Rows(j')) == StartedBy(Rows(j))
  {
    var stamped := Blank(AwaitAnyChild).(request := ids, response := text, createdAt := Max(clock, s.nowMs));
    var part := j.open + [stamped];
    j' := Answered(j, Returned(text), part);
    AnsweredIsValid(json, guest, j, Returned(text), part);
    TableAppend(Rows(j), stamped);
    assert Rows(j') == Rows(j) + [stamped];
    assert j'.parts[..|j'.parts|] == j'.parts;
    NoNewChild(j, j', part);
  }

  /** A suspension of an await-any that was not resumed leaves one more record. */
  lemma {:induction false} SuspendAny(json: Json, guest: Guest, j: Journal, s: Session, ids: string, clock: nat)
    returns (j': Journal)
    requires Valid(json, guest, j) && json.ids(ids).Ids? && (j.open != [] ==> !Unrefused(j))
    requires s.rows == Table(Rows(j)) && s.stepCount == |Rows(j)|
    requires guest(j.answers) == Ask(AwaitAny(ids))
    ensures Extends(json, guest, j, s,
                    RecordEvent(s, Blank(AwaitAnyChild).(request := ids), clock).(suspended := true), Suspended, j')
    ensures StartedBy(Rows(j')) == StartedBy(Rows(j))
  {
    var row := Blank(AwaitAnyChild).(request := ids);
    var stamped := row.(createdAt := Max(clock, s.nowMs));
    j' := j.(open := j.open + [stamped]);
    OneMoreRecord(json, j.open, stamped, ids);
    AppendsRecord(j, s, row, clock);
    AppendsNoChild(j, stamped);
  }

  lemma {:induction false} AppendsNoChild(j: Journal, row: Row)
    requires row.kind == AwaitAnyChild && (j.open == [] || OpenAny(j.open))
    ensures StartedBy(Rows(j.(open := j.open + [row]))) == StartedBy(Rows(j))
  {
    NoNewChild(j, j.(open := j.open + [row]), j.open + [row]);
  }

  lemma {:induction false} AppendsRecord(j: Journal, s: Session, row: Row, clock: nat)
    requires s.rows == Table(Rows(j)) && s.stepCount == |Rows(j)|
    ensures RecordEvent(s, row, clock).rows
         == Table(Rows(j.(open := j.open + [row.(createdAt := Max(clock, s.nowMs))])))
  {
    var stamped := row.(createdAt := Max(clock, s.nowMs));
    TableAppend(Rows(j), stamped);
    assert Rows(j.(open := j.open + [stamped])) == Rows(j) + [stamped];
  }

  lemma {:induction false} OneMoreRecord(json: Json, open: seq<Row>, row: Row, ids: string)
    requires OpenFor(json, Ask(AwaitAny(ids)), open) && json.ids(ids).Ids?
    requires row.kind == AwaitAnyChild && row.response == "" && row.request == ids
    ensures OpenFor(json, Ask(AwaitAny(ids)), open + [row])
  {
  }

  lemma {:induction false} FreshAnyExtends(json: Json, guest: Guest, j: Journal, s: Session, resumed: bool, w: World)
    returns (j': Journal)
    requires Renders(json) && Valid(json, guest, j) && !s.isReplay && !s.suspended
    requires s.rows == Table(Rows(j)) && s.stepCount == |Rows(j)|
    requires guest(j.answers).Ask? && guest(j.answers).request.AwaitAny?
    requires resumed ==> j.open != []
    requires !resumed && j.open != [] ==> !Unrefused(j)
    ensures var (s', a) := FreshAny(json, s, guest(j.answers).request.ids, resumed, w);
            && Extends(json, guest, j, s, s', a, j')
            && s'.children == s.children && StartedBy(Rows(j')) == StartedBy(Rows(j))
  {
    var ids := guest(j.answers).request.ids;
    var (s', a) := FreshAny(json, s, ids, resumed, w);
    if a.Returned? {
      j' := AnswerAny(json, guest, j, s, ids, a.text, w.clock);
    } else if a.Refused? {
      assert Rows(j) == Flatten(j.parts) && j.parts[..|j.parts|] == j.parts;
      j' := AnsweredWithoutRow(json, guest, j, a, s, s');
    } else if !resumed {
      j' := SuspendAny(json, guest, j, s, ids, w.clock);
    } else {
      j' := j;
    }
  }

  lemma {:induction false} PendingAny(json: Json, guest: Guest, j: Journal, s: Session, w: World) returns (j': Journal)
    requires Renders(json) && Valid(json, guest, j) && StandsAt(j, |j.parts|, s)
    requires guest(j.answers).Ask? && guest(j.answers).request.AwaitAny?
    ensures var (s', a) := Call(json, s, guest(j.answers).request, w);
            && Extends(json, guest, j, s, s', a, j')
            && s'.children == s.children && StartedBy(Rows(j')) == StartedBy(Rows(j))
  {
    var ids := guest(j.answers).request.ids;
    assert j.parts[..|j.parts|] == j.parts;
    if HasRecord(s) {
      var n := s.stepCount;
      assert j.open != [];
      assert forall i :: n <= i < |s.history| ==> s.history[i] == j.open[i - n];
      var s1 := Advance(s, s.history[n]);
      ConsumeToEnd(json, s1, ids);
      j' := FreshAnyExtends(json, guest, j, ExitReplay(ConsumeAny(json, s1, ids).0), true, w);
    } else {
      assert j.open == [] ==> Rows(j) == Flatten(j.parts);
      j' := FreshAnyExtends(json, guest, j, ExitReplay(s), false, w);
    }
  }

  lemma {:induction false} PendingPoll(json: Json, guest: Guest, j: Journal, s: Session, w: World) returns (j': Journal)
    requires Valid(json, guest, j) && StandsAt(j, |j.parts|, s)
    requires guest(j.answers).Ask? && guest(j.answers).request.Poll?
    ensures var (s', a) := Call(json, s, guest(j.answers).request, w);
            Extends(json, guest, j, s, s', a, j') && s' == s && Rows(j') == Rows(j)
  {
    var (s', a) := Call(json, s, guest(j.answers).request, w);
    j' := AnsweredWithoutRow(json, guest, j, a, s, s');
  }

  /** The pending call, of any kind, extends the journal, and the children started are exactly those of
      its child_workflow rows. */
  lemma {:induction false} PendingCall(json: Json, guest: Guest, j: Journal, s: Session, w: World)
    returns (j': Journal)
    requires Renders(json) && Valid(json, guest, j) && StandsAt(j, |j.parts|, s) && Sound(w)
    requires guest(j.answers).Ask? && s.children == StartedBy(Rows(j))
    ensures var (s', a) := Call(json, s, guest(j.answers).request, w);
            Extends(json, guest, j, s, s', a, j') && s'.children == StartedBy(Rows(j'))
  {
    match guest(j.answers).request
    case StartChild(_, _, _) =>
      j' := PendingStart(json, guest, j, s, w);
      StartedRow(json, j, s, guest(j.answers).request, w, j');
    case Await(_) => j' := PendingAwait(json, guest, j, s, w);
    case AwaitAny(_) => j' := PendingAny(json, guest, j, s, w);
    case AwaitAll(_) => j' := PendingAll(json, guest, j, s, w);
    case Poll(_) => j' := PendingPoll(json, guest, j, s, w);
  }

  lemma {:induction false} StartedRow(json: Json, j: Journal, s: Session, req: Request, w: World, j': Journal)
    requires s.children == StartedBy(Rows(j))
    requires var (s', a) := Call(json, s, req, w);
             && s'.children == s.children + (if a.Started? then [a.runID] else [])
             && Rows(j') == Rows(j) + (if a.Started?
                                       then [Blank(ChildWorkflow).(runID := a.runID, createdAt := w.clock)] else [])
    ensures Call(json, s, req, w).0.children == StartedBy(Rows(j'))
  {
    var a := Call(json, s, req, w).1;
    if a.Started? {
      var row := Blank(ChildWorkflow).(runID := a.runID, createdAt := w.clock);
      assert (Rows(j) + [row])[..|Rows(j)|] == Rows(j);
    } else {
      assert Rows(j') == Rows(j);
    }
  }
}
