/**
 Replay over a compacted history. The child calls read a few columns of each record; compaction
 preserves those columns, and with them every answer of every guest, under an exact condition.
 A second compaction of the same run does not.
 */
module CompactionReplay {
  import opened EventCodec
  import opened Compaction
  import EventFields
  import EventTable
  import Child = ChildCalls
  import Journals
  import Replay = ReplayDeterminism

  /** What the child calls read of a record. */
  function View(ev: EventRecord): EventTable.Row {
    var at := if ev.timestampMs > 0 then ev.timestampMs else 0;
    match ev.kind
    case ChildWorkflow =>
      Child.Blank(EventTable.ChildWorkflow).(runID := TextAt(ev, Field.RunID), createdAt := at)
    case AwaitChild =>
      Child.Blank(EventTable.AwaitChild).(
        runID := TextAt(ev, Field.RunID), response := TextAt(ev, Field.Response), error := TextAt(ev, Field.Err),
        createdAt := at)
    case AwaitAnyChild =>
      Child.Blank(EventTable.AwaitAnyChild).(
        request := TextAt(ev, Field.Request), response := TextAt(ev, Field.Response), createdAt := at)
    case AwaitAllChildren =>
      Child.Blank(EventTable.AwaitAllChildren).(
        request := TextAt(ev, Field.Request), response := TextAt(ev, Field.Response), createdAt := at)
    case _ => Child.Blank(EventTable.OtherKind("")).(createdAt := at)
  }

  function Views(evs: seq<EventRecord>): (rows: seq<EventTable.Row>)
    ensures |rows| == |evs|
    ensures forall i :: 0 <= i < |evs| ==> rows[i] == View(evs[i])
  {
    seq(|evs|, i requires 0 <= i < |evs| => View(evs[i]))
  }

  /** An await-all record with the request it names, which compaction does not carry. */
  predicate NamesChildren(ev: EventRecord) {
    ev.kind == AwaitAllChildren && TextAt(ev, Field.Request) != ""
  }

  /** The fields of a record the child calls read and compaction carries. */
  predicate Reads(t: EventType, f: Field) {
    match t
    case ChildWorkflow => f == Field.RunID
    case AwaitChild => f == Field.RunID || f == Field.Response || f == Field.Err
    case AwaitAnyChild => f == Field.Request || f == Field.Response
    case AwaitAllChildren => f == Field.Response
    case _ => false
  }

  lemma {:induction false} ReadsAreKept(t: EventType, f: Field)
    ensures Reads(t, f) ==> f in EventFields.Kept(t)
    ensures Field.Request !in EventFields.Kept(AwaitAllChildren)
  {
  }

  /** `back` is `ev` as far as compaction carries it. */
  predicate CarriedOver(ev: EventRecord, back: EventRecord) {
    && back.kind == ev.kind && back.timestampMs == ev.timestampMs
    && (Reads(ev.kind, Field.RunID) ==> TextAt(back, Field.RunID) == TextAt(ev, Field.RunID))
    && (Reads(ev.kind, Field.Request) ==> TextAt(back, Field.Request) == TextAt(ev, Field.Request))
    && (Reads(ev.kind, Field.Response) ==> TextAt(back, Field.Response) == TextAt(ev, Field.Response))
    && (Reads(ev.kind, Field.Err) ==> TextAt(back, Field.Err) == TextAt(ev, Field.Err))
    && (ev.kind == AwaitAllChildren ==> TextAt(back, Field.Request) == "")
  }

  lemma {:induction false} RestoredText(ev: EventRecord, i: nat, f: Field)
    requires Compactable(ev.kind) && Typed(ev)
    ensures Reads(ev.kind, f) ==> TextAt(Restore(i, Compact(ev)), f) == TextAt(ev, f)
    ensures ev.kind == AwaitAllChildren && f == Field.Request ==> TextAt(Restore(i, Compact(ev)), f) == ""
  {
    EventFields.FieldAfter(ev, i, f);
    ReadsAreKept(ev.kind, f);
  }

  lemma {:induction false} RestoredIsCarriedOver(ev: EventRecord, i: nat)
    requires Compactable(ev.kind) && Typed(ev)
    ensures CarriedOver(ev, Restore(i, Compact(ev)))
  {
    RestoreCompact(ev, i, Field.RunID);
    RestoredText(ev, i, Field.RunID);
    RestoredText(ev, i, Field.Request);
    RestoredText(ev, i, Field.Response);
    RestoredText(ev, i, Field.Err);
  }

  lemma {:induction false} ViewOfCarriedOver(ev: EventRecord, back: EventRecord)
    requires CarriedOver(ev, back)
    ensures View(back) == View(ev) <==> !NamesChildren(ev)
  {
  }

  /** One record looks the same to the child calls after compaction unless it is an await-all
      naming its children. */
  lemma {:induction false} ViewSurvives(ev: EventRecord, i: nat)
    requires Compactable(ev.kind) && Typed(ev)
    ensures View(Restore(i, Compact(ev))) == View(ev) <==> !NamesChildren(ev)
  {
    RestoredIsCarriedOver(ev, i);
    ViewOfCarriedOver(ev, Restore(i, Compact(ev)));
  }

  /** The rebuilt history looks the same to the child calls exactly when nothing was truncated
      and no compacted await-all names its children. */
  lemma {:induction false} ViewsSurvive(rows: seq<EventRecord>, keep: nat)
    requires keep <= |rows| && CompactableAll(rows[..keep])
    ensures Views(Rebuilt(rows, keep)) == Views(rows)
       <==> keep <= MAX_COMPACTED_EVENTS && (forall i :: 0 <= i < keep ==> !NamesChildren(rows[i]))
  {
    var full := Rebuilt(rows, keep);
    if keep <= MAX_COMPACTED_EVENTS {
      forall i | 0 <= i < keep ensures full[i] == Restore(i, Compact(rows[i]))
                                    && (View(full[i]) == View(rows[i]) <==> !NamesChildren(rows[i])) {
        assert rows[..keep][i] == rows[i];
        ViewSurvives(rows[i], i);
      }
      assert forall i :: keep <= i < |rows| ==> full[i] == rows[i];
      if Views(full) == Views(rows) {
        forall i | 0 <= i < keep ensures !NamesChildren(rows[i]) {
          assert Views(full)[i] == Views(rows)[i];
        }
      }
    } else {
      assert |full| < |rows|;
    }
  }

  // ---- Answers depend on the history, not on which rows are still in the table -------------------

  /** Two sessions that differ at most in their rows. */
  predicate Twins(s: Child.Session, t: Child.Session) {
    && s.isReplay == t.isReplay && s.stepCount == t.stepCount && s.history == t.history && s.children == t.children
    && s.nowMs == t.nowMs && s.suspended == t.suspended
  }

  lemma {:induction false} ConsumeIgnoresRows(json: Child.Json, s: Child.Session, t: Child.Session, request: string)
    requires Twins(s, t)
    ensures Child.ConsumeAny(json, s, request).1 == Child.ConsumeAny(json, t, request).1
    ensures Twins(Child.ConsumeAny(json, s, request).0, Child.ConsumeAny(json, t, request).0)
    decreases |s.history| - s.stepCount
  {
    if s.stepCount < |s.history| {
      var rec := s.history[s.stepCount];
      ConsumeIgnoresRows(json, Child.Advance(s, rec), Child.Advance(t, rec), request);
    }
  }

  /** Two calls answered alike, leaving twins. */
  predicate Alike(x: (Child.Session, Child.Answer), y: (Child.Session, Child.Answer)) {
    x.1 == y.1 && Twins(x.0, y.0)
  }

  lemma {:induction false} StartIgnoresRows(s: Child.Session, t: Child.Session, policy: string, w: Child.World)
    requires Twins(s, t)
    ensures Alike(Child.StartCall(s, policy, w), Child.StartCall(t, policy, w))
  {
  }

  lemma {:induction false} FreshAwaitIgnoresRows(s: Child.Session, t: Child.Session, runID: string, w: Child.World)
    requires Twins(s, t)
    ensures Alike(Child.FreshAwait(s, runID, w), Child.FreshAwait(t, runID, w))
  {
  }

  lemma {:induction false} FreshAllIgnoresRows(json: Child.Json, s: Child.Session, t: Child.Session, ids: string,
                                               w: Child.World)
    requires Twins(s, t)
    ensures Alike(Child.FreshAll(json, s, ids, w), Child.FreshAll(json, t, ids, w))
  {
  }

  lemma {:induction false} AwaitIgnoresRows(s: Child.Session, t: Child.Session, runID: string, w: Child.World)
    requires Twins(s, t)
    ensures Alike(Child.AwaitCall(s, runID, w), Child.AwaitCall(t, runID, w))
  {
    FreshAwaitIgnoresRows(Child.ExitReplay(s), Child.ExitReplay(t), runID, w);
  }

  lemma {:induction false} AnyIgnoresRows(json: Child.Json, s: Child.Session, t: Child.Session, ids: string,
                                          w: Child.World)
    requires Twins(s, t)
    ensures Alike(Child.AnyCall(json, s, ids, w), Child.AnyCall(json, t, ids, w))
  {
    if Child.HasRecord(s) {
      var rec := s.history[s.stepCount];
      ConsumeIgnoresRows(json, Child.Advance(s, rec), Child.Advance(t, rec), rec.request);
    }
  }

  lemma {:induction false} AllIgnoresRows(json: Child.Json, s: Child.Session, t: Child.Session, ids: string,
                                          w: Child.World)
    requires Twins(s, t)
    ensures Alike(Child.AllCall(json, s, ids, w), Child.AllCall(json, t, ids, w))
  {
    FreshAllIgnoresRows(json, Child.ExitReplay(s), Child.ExitReplay(t), ids, w);
  }

  lemma {:induction false} CallIgnoresRows(json: Child.Json, s: Child.Session, t: Child.Session, req: Child.Request,
                                           w: Child.World)
    requires Twins(s, t)
    ensures Alike(Child.Call(json, s, req, w), Child.Call(json, t, req, w))
  {
    match req
    case StartChild(_, _, policy) => StartIgnoresRows(s, t, policy, w);
    case Await(runID) => AwaitIgnoresRows(s, t, runID, w);
    case AwaitAny(ids) => AnyIgnoresRows(json, s, t, ids, w);
    case AwaitAll(ids) => AllIgnoresRows(json, s, t, ids, w);
    case Poll(_) =>
  }

  /** Two segments with the same answers and ending, leaving twins. */
  predicate SameSegment(a: Replay.Segment, b: Replay.Segment) {
    a.answers == b.answers && a.ending == b.ending && Twins(a.session, b.session)
  }

  lemma {:induction false} ContinueIgnoresRows(json: Child.Json, guest: Journals.Guest, a: Replay.Segment,
                                               b: Replay.Segment, w: Child.World)
    requires SameSegment(a, b)
    ensures SameSegment(Replay.Continue(json, guest, a, w), Replay.Continue(json, guest, b, w))
  {
    if guest(a.answers).Ask? { CallIgnoresRows(json, a.session, b.session, guest(a.answers).request, w); }
  }

  lemma {:induction false} RunIgnoresRows(json: Child.Json, guest: Journals.Guest, s: Child.Session, t: Child.Session,
                                          worlds: nat -> Child.World, calls: nat)
    requires Twins(s, t)
    ensures SameSegment(Replay.Run(json, guest, s, worlds, calls), Replay.Run(json, guest, t, worlds, calls))
  {
    if calls > 0 {
      RunIgnoresRows(json, guest, s, t, worlds, calls - 1);
      ContinueIgnoresRows(json, guest, Replay.Run(json, guest, s, worlds, calls - 1),
                          Replay.Run(json, guest, t, worlds, calls - 1), worlds(calls - 1));
    }
  }

  /** Compaction preserves meaning for the child calls: over the rebuilt history every guest gets
      the same answers, ends the same way at the same step and clock, and starts the same
      children, whatever the event table still holds. */
  lemma {:induction false} ChildReplaySurvivesCompaction(
    json: Child.Json, guest: Journals.Guest, rows: seq<EventRecord>, keep: nat,
    whole: Child.Session, table: map<nat, EventTable.Row>, worlds: nat -> Child.World, calls: nat)
    requires keep <= |rows| && CompactableAll(rows[..keep]) && keep <= MAX_COMPACTED_EVENTS
    requires forall i :: 0 <= i < keep ==> !NamesChildren(rows[i])
    requires whole.history == Views(rows)
    ensures var compacted := whole.(history := Views(Rebuilt(rows, keep)), rows := table);
            SameSegment(Replay.Run(json, guest, whole, worlds, calls),
                        Replay.Run(json, guest, compacted, worlds, calls))
  {
    ViewsSurvive(rows, keep);
    RunIgnoresRows(json, guest, whole, whole.(rows := table), worlds, calls);
  }

  /** A settled await-all that was compacted is replayed as a divergence exactly when the guest
      names any children. */
  lemma {:induction false} CompactedAwaitAllReplays(json: Child.Json, ev: EventRecord, i: nat, s: Child.Session,
                                                    w: Child.World)
    requires ev.kind == AwaitAllChildren && Typed(ev) && TextAt(ev, Field.Response) != ""
    requires Child.HasRecord(s) && s.history[s.stepCount] == View(Restore(i, Compact(ev)))
    ensures Child.AllCall(json, s, TextAt(ev, Field.Request), w).1
         == if NamesChildren(ev) then Child.Diverged else Child.Returned(TextAt(ev, Field.Response))
  {
    RestoredIsCarriedOver(ev, i);
    AllCallOnView(json, ev, Restore(i, Compact(ev)), s, w);
  }

  lemma {:induction false} AllCallOnView(json: Child.Json, ev: EventRecord, back: EventRecord, s: Child.Session,
                                         w: Child.World)
    requires CarriedOver(ev, back) && ev.kind == AwaitAllChildren && TextAt(ev, Field.Response) != ""
    requires Child.HasRecord(s) && s.history[s.stepCount] == View(back)
    ensures Child.AllCall(json, s, TextAt(ev, Field.Request), w).1
         == if NamesChildren(ev) then Child.Diverged else Child.Returned(TextAt(ev, Field.Response))
  {
  }

  // ---- Compacting a stored run -------------------------------------------------------------------

  datatype Checkpoint = Uncompacted | Checkpoint(events: seq<CompactedEvent>, step: nat)

  /** The rows of a run in step order, and its checkpoint. */
  datatype RunStore = RunStore(rows: seq<EventRecord>, checkpoint: Checkpoint)

  function StepsFrom(rows: seq<EventRecord>, step: nat): seq<EventRecord> {
    if rows == [] then []
    else (if rows[0].step >= step then [rows[0]] else []) + StepsFrom(rows[1..], step)
  }

  predicate AllCompactable(events: seq<EventRecord>) {
    forall i :: 0 <= i < |events| ==> Compactable(events[i].kind)
  }

  /** One compaction pass: the loaded rows alone decide the cut, which is then used as a step. */
  function CompactOnce(st: RunStore, limit: nat): RunStore {
    if |st.rows| <= limit then st
    else
      var keep := |st.rows| - limit / 2;
      if !AllCompactable(st.rows[..keep]) then st
      else RunStore(StepsFrom(st.rows, keep), Checkpoint(Newest(CompactAll(st.rows[..keep])), keep))
  }

  /** The history an execution replays. */
  function ReplayHistory(st: RunStore): seq<EventRecord> {
    if st.checkpoint.Uncompacted? || st.rows == [] then st.rows
    else RestoreAll(st.checkpoint.events) + st.rows
  }

  predicate Contiguous(rows: seq<EventRecord>, base: nat) {
    forall i :: 0 <= i < |rows| ==> rows[i].step == base + i
  }

  lemma {:induction false} FromContiguous(rows: seq<EventRecord>, base: nat, step: nat)
    requires Contiguous(rows, base)
    ensures StepsFrom(rows, step) == if step <= base then rows else if step - base <= |rows| then rows[step - base..] else []
  {
    if rows != [] {
      assert Contiguous(rows[1..], base + 1);
      FromContiguous(rows[1..], base + 1, step);
    }
  }

  lemma {:induction false} FirstHistory(rows: seq<EventRecord>, limit: nat, keep: nat)
    requires Contiguous(rows, 0) && AllCompactable(rows) && |rows| > limit && keep == |rows| - limit / 2
    ensures ReplayHistory(CompactOnce(RunStore(rows, Uncompacted), limit))
         == if keep < |rows| then Rebuilt(rows, keep) else []
  {
    FromContiguous(rows, 0, keep);
  }

  /** The first compaction of a run preserves what the child calls see exactly when it does
      nothing, or keeps at least one row, truncates nothing and folds no await-all that names its
      children. */
  lemma {:induction false} FirstCompaction(rows: seq<EventRecord>, limit: nat)
    requires Contiguous(rows, 0) && CompactableAll(rows)
    ensures Views(ReplayHistory(CompactOnce(RunStore(rows, Uncompacted), limit))) == Views(rows)
       <==> || |rows| <= limit
            || (var keep := |rows| - limit / 2;
                && keep < |rows| && keep <= MAX_COMPACTED_EVENTS
                && (forall i :: 0 <= i < keep ==> !NamesChildren(rows[i])))
  {
    if |rows| > limit {
      var keep := |rows| - limit / 2;
      FirstHistory(rows, limit, keep);
      if keep < |rows| {
        ViewsSurvive(rows, keep);
      }
    }
  }

  /** A run already compacted at `first` is offered again once its remaining rows outnumber that
      step by more than the limit. */
  predicate Candidate(st: RunStore, limit: nat) {
    |st.rows| > limit && (st.checkpoint.Checkpoint? ==> st.checkpoint.step < |st.rows| - limit)
  }

  lemma {:induction false} CompactTail(tail: seq<EventRecord>, first: nat, events: seq<CompactedEvent>, limit: nat,
                                       keep: nat)
    requires Contiguous(tail, first) && AllCompactable(tail) && |tail| > limit && keep == |tail| - limit / 2
    requires first <= keep
    ensures CompactOnce(RunStore(tail, Checkpoint(events, first)), limit)
         == RunStore(tail[keep - first..], Checkpoint(Newest(CompactAll(tail[..keep])), keep))
  {
    FromContiguous(tail, first, keep);
  }

  lemma {:induction false} SecondStore(rows: seq<EventRecord>, first: nat, events: seq<CompactedEvent>, limit: nat,
                                       keep: nat)
    requires Contiguous(rows, 0) && AllCompactable(rows) && 0 < first <= |rows|
    requires Candidate(RunStore(rows[first..], Checkpoint(events, first)), limit)
    requires keep == |rows| - first - limit / 2
    ensures first < keep < |rows|
    ensures CompactOnce(RunStore(rows[first..], Checkpoint(events, first)), limit)
         == RunStore(rows[keep..], Checkpoint(Newest(CompactAll(rows[first..first + keep])), keep))
  {
    var tail := rows[first..];
    CompactTail(tail, first, events, limit, keep);
    assert tail[..keep] == rows[first..first + keep];
    assert tail[keep - first..] == rows[keep..];
  }

  lemma {:induction false} SecondCompactionHistory(rows: seq<EventRecord>, first: nat, events: seq<CompactedEvent>,
                                                   limit: nat, keep: nat)
    requires Contiguous(rows, 0) && AllCompactable(rows) && 0 < first <= |rows|
    requires Candidate(RunStore(rows[first..], Checkpoint(events, first)), limit)
    requires keep == |rows| - first - limit / 2
    ensures first < keep < |rows|
    ensures ReplayHistory(CompactOnce(RunStore(rows[first..], Checkpoint(events, first)), limit))
         == RestoreAll(Newest(CompactAll(rows[first..first + keep]))) + rows[keep..]
  {
    SecondStore(rows, first, events, limit, keep);
  }

  /** What the child calls see of a record once it was compacted: an await-all has lost its request. */
  function Stripped(row: EventTable.Row): EventTable.Row {
    if row.kind == EventTable.AwaitAllChildren then row.(request := "") else row
  }

  lemma {:induction false} StrippedByCompaction(ev: EventRecord, i: nat)
    requires Compactable(ev.kind) && Typed(ev)
    ensures View(Restore(i, Compact(ev))) == Stripped(View(ev))
  {
    RestoredIsCarriedOver(ev, i);
    StrippedCarriedOver(ev, Restore(i, Compact(ev)));
  }

  lemma {:induction false} StrippedCarriedOver(ev: EventRecord, back: EventRecord)
    requires CarriedOver(ev, back)
    ensures View(back) == Stripped(View(ev))
  {
  }

  lemma {:induction false} ShiftedRecord(rows: seq<EventRecord>, first: nat, keep: nat, i: nat)
    requires CompactableAll(rows) && first + keep <= |rows| && keep <= |rows| && i < keep
    ensures var history := RestoreAll(CompactAll(rows[first..first + keep])) + rows[keep..];
            View(history[i]) == Stripped(View(rows[first + i]))
  {
    assert rows[first..first + keep][i] == rows[first + i];
    StrippedByCompaction(rows[first + i], i);
  }

  /** The exact condition for a run that is compacted again: what the child calls see survives if and
      only if nothing is truncated and every record below the new cut looks like the one `first` steps
      later, as compaction leaves it. */
  lemma {:induction false} SecondCompaction(rows: seq<EventRecord>, first: nat, events: seq<CompactedEvent>,
                                            limit: nat, keep: nat)
    requires Contiguous(rows, 0) && CompactableAll(rows) && 0 < first <= |rows|
    requires Candidate(RunStore(rows[first..], Checkpoint(events, first)), limit)
    requires keep == |rows| - first - limit / 2
    ensures Views(ReplayHistory(CompactOnce(RunStore(rows[first..], Checkpoint(events, first)), limit))) == Views(rows)
       <==> && keep <= MAX_COMPACTED_EVENTS
            && (forall i :: 0 <= i < keep ==> View(rows[i]) == Stripped(View(rows[first + i])))
  {
    SecondCompactionHistory(rows, first, events, limit, keep);
    var history := RestoreAll(Newest(CompactAll(rows[first..first + keep]))) + rows[keep..];
    if keep <= MAX_COMPACTED_EVENTS {
      ShiftedViews(rows, first, keep, history);
    } else {
      assert |Views(history)| < |Views(rows)|;
    }
  }

  lemma {:induction false} ShiftedViews(rows: seq<EventRecord>, first: nat, keep: nat, history: seq<EventRecord>)
    requires CompactableAll(rows) && first + keep <= |rows| && keep <= |rows|
    requires history == RestoreAll(CompactAll(rows[first..first + keep])) + rows[keep..]
    ensures Views(history) == Views(rows)
       <==> forall i :: 0 <= i < keep ==> View(rows[i]) == Stripped(View(rows[first + i]))
  {
    var head := RestoreAll(CompactAll(rows[first..first + keep]));
    forall i | 0 <= i < keep ensures View(head[i]) == Stripped(View(rows[first + i])) {
      assert head[i] == history[i];
      ShiftedRecord(rows, first, keep, i);
    }
    assert Views(history) == Views(head) + Views(rows)[keep..];
    SameFromCut(Views(head), Views(rows));
    if Views(history) == Views(rows) {
      forall i | 0 <= i < keep ensures View(rows[i]) == Stripped(View(rows[first + i])) {
        assert Views(rows)[i] == Views(head)[i];
      }
    } else {
      var i :| 0 <= i < keep && Views(rows)[i] != Views(head)[i];
      assert View(rows[i]) != Stripped(View(rows[first + i]));
    }
  }

  lemma {:induction false} SameFromCut(head: seq<EventTable.Row>, rows: seq<EventTable.Row>)
    requires |head| <= |rows|
    ensures head + rows[|head|..] == rows <==> forall i :: 0 <= i < |head| ==> rows[i] == head[i]
  {
    if head + rows[|head|..] == rows {
      forall i | 0 <= i < |head| ensures rows[i] == head[i] {
        assert (head + rows[|head|..])[i] == head[i];
      }
    }
  }

  lemma {:induction false} OlderLooksDifferent(ev: EventRecord, later: EventRecord)
    requires ev.timestampMs < later.timestampMs && later.timestampMs > 0
    ensures View(ev) != Stripped(View(later))
  {
    assert View(ev).createdAt != Stripped(View(later)).createdAt;
  }

  /** A run whose records carry increasing times never survives a second compaction. */
  lemma {:induction false} SecondCompactionNeverSurvives(rows: seq<EventRecord>, first: nat, events: seq<CompactedEvent>,
                                                         limit: nat)
    requires Contiguous(rows, 0) && CompactableAll(rows) && 0 < first < |rows|
    requires Candidate(RunStore(rows[first..], Checkpoint(events, first)), limit)
    requires rows[0].timestampMs < rows[first].timestampMs && rows[first].timestampMs > 0
    ensures Views(ReplayHistory(CompactOnce(RunStore(rows[first..], Checkpoint(events, first)), limit))) != Views(rows)
  {
    OlderLooksDifferent(rows[0], rows[first]);
    SecondCompaction(rows, first, events, limit, |rows| - first - limit / 2);
  }

  /** What is left is shifted. The rebuilt history has the right length and passes the density check,
      but below the new cut index i holds the original record first + i: the first checkpoint is
      overwritten and the records after the cut are seen twice. */
  lemma {:induction false} SecondCompactionShifts(rows: seq<EventRecord>, first: nat, events: seq<CompactedEvent>,
                                                  limit: nat, keep: nat, i: nat)
    requires Contiguous(rows, 0) && CompactableAll(rows) && 0 < first <= |rows| && i < |rows|
    requires Candidate(RunStore(rows[first..], Checkpoint(events, first)), limit)
    requires keep == |rows| - first - limit / 2 <= MAX_COMPACTED_EVENTS
    ensures var history := ReplayHistory(CompactOnce(RunStore(rows[first..], Checkpoint(events, first)), limit));
            && |history| == |rows| && Dense(history)
            && (i < keep ==> View(history[i]) == Stripped(View(rows[first + i])))
            && (i >= keep ==> history[i] == rows[i])
  {
    SecondCompactionHistory(rows, first, events, limit, keep);
    if i < keep { ShiftedRecord(rows, first, keep, i); }
  }

  /** So a run that started one child first and another at step `first` is told, on its first call
      after the second compaction, that it started the other. */
  lemma {:induction false} SecondCompactionAnswersWrongChild(
    rows: seq<EventRecord>, first: nat, events: seq<CompactedEvent>, limit: nat, s: Child.Session, w: Child.World)
    requires Contiguous(rows, 0) && CompactableAll(rows) && 0 < first < |rows|
    requires Candidate(RunStore(rows[first..], Checkpoint(events, first)), limit)
    requires |rows| - first - limit / 2 <= MAX_COMPACTED_EVENTS
    requires rows[0].kind == ChildWorkflow && rows[first].kind == ChildWorkflow
    requires TextAt(rows[0], Field.RunID) != TextAt(rows[first], Field.RunID)
    requires s.isReplay && s.stepCount == 0
    requires s.history == Views(ReplayHistory(CompactOnce(RunStore(rows[first..], Checkpoint(events, first)), limit)))
    ensures var now, before := Child.StartCall(s, "", w).1, Child.StartCall(s.(history := Views(rows)), "", w).1;
            && now == Child.Started(TextAt(rows[first], Field.RunID))
            && before == Child.Started(TextAt(rows[0], Field.RunID)) && now != before
  {
    SecondCompactionShifts(rows, first, events, limit, |rows| - first - limit / 2, 0);
  }

  // ---- Such a run --------------------------------------------------------------------------------

  /** A run that has started the children "0", "1", ... one after another. */
  function Spawned(n: nat): seq<EventRecord> {
    seq(n, i requires 0 <= i < n =>
      EventRecord(i, ChildWorkflow, i + 1, f => if f == Field.RunID then Text(Print(i)) else Zero(f)))
  }

  lemma {:induction false} SpawnedIsCompactable(n: nat)
    ensures Contiguous(Spawned(n), 0) && CompactableAll(Spawned(n))
  {
  }

  /** Compacted at three records and again at seven, with a limit of two, the run is told it started
      child "2" where it started child "0". */
  lemma {:induction false} TwiceCompactedRun(s: Child.Session, w: Child.World)
    requires s.isReplay && s.stepCount == 0
    ensures var rows := Spawned(7);
            var once := CompactOnce(RunStore(rows[..3], Uncompacted), 2);
            var twice := CompactOnce(RunStore(once.rows + rows[3..], once.checkpoint), 2);
            && Child.StartCall(s.(history := Views(rows)), "", w).1 == Child.Started("0")
            && Child.StartCall(s.(history := Views(ReplayHistory(twice))), "", w).1 == Child.Started("2")
  {
    var rows := Spawned(7);
    SpawnedIsCompactable(7);
    var once := CompactedAtThree(rows);
    var history := Views(ReplayHistory(CompactOnce(RunStore(rows[2..], once.checkpoint), 2)));
    assert TextAt(rows[0], Field.RunID) == "0" && TextAt(rows[2], Field.RunID) == "2";
    SecondCompactionAnswersWrongChild(rows, 2, once.checkpoint.events, 2, s.(history := history), w);
  }

  lemma {:induction false} CompactedAtThree(rows: seq<EventRecord>) returns (once: RunStore)
    requires |rows| > 3 && Contiguous(rows, 0) && AllCompactable(rows)
    ensures once == CompactOnce(RunStore(rows[..3], Uncompacted), 2)
    ensures once.rows + rows[3..] == rows[2..] && once.checkpoint.Checkpoint? && once.checkpoint.step == 2
  {
    once := CompactOnce(RunStore(rows[..3], Uncompacted), 2);
    FromContiguous(rows[..3], 0, 2);
    assert once.rows == rows[..3][2..];
  }
}
