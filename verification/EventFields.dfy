/**
 What an event of each type is recorded with, what replay reads of it, and what compaction keeps. The
 tables are those of the code that records and replays the events; the codec's own arms are measured
 against them.
 */
module EventFields {
  import opened EventCodec
  import opened Compaction

  /** What compaction is to keep of an event of this type. */
  function Kept(t: EventType): seq<Field> {
    match t
    case Call =>
      [Field.Service, Field.Op, Field.Request, Field.Response, Field.Err, Field.DurationMs,
       Field.ErrNonRetryable, Field.ErrCode, Field.RetriesExhausted, Field.ResolvedBy]
    case AwaitSignals =>
      [Field.SignalNames, Field.TimeoutMs]
    case SignalReceived =>
      [Field.SignalName, Field.SignalPayload]
    case Defer =>
      [Field.DeferID, Field.DeferDescription]
    case ChildWorkflow =>
      [Field.ChildName, Field.ChildInput, Field.RunID, Field.ParentWorkflowID, Field.ParentClosePolicy]
    case AwaitChild =>
      [Field.Response, Field.Err, Field.RunID]
    case ContinueAsNew =>
      [Field.NewInput, Field.NewVersion]
    case Heartbeat =>
      [Field.Service, Field.Op]
    case AwaitAllChildren =>
      [Field.Response]
    case PluginCall =>
      [Field.PluginName, Field.PluginFunc, Field.PluginInput, Field.PluginOutput, Field.PluginError]
    case CreatePromise =>
      [Field.PromiseName, Field.PromiseID]
    case AwaitPromise =>
      [Field.PromiseID]
    case PromiseResolved =>
      [Field.PromiseID, Field.PromiseResult]
    case PromiseRejected =>
      [Field.PromiseID, Field.PromiseError]
    case UpdateHandler =>
      [Field.UpdateHandlerName]
    case UpdateReceived =>
      [Field.UpdatePayload, Field.UpdateHandlerName, Field.UpdateRequestID]
    case UpdateCompleted =>
      [Field.UpdateResponse, Field.UpdateError, Field.UpdateHandlerName, Field.UpdateRequestID]
    case StateMutation =>
      [Field.StateValue, Field.StateDelta, Field.StateKey, Field.StateOp, Field.StateKeys]
    case AwaitAnyChild =>
      [Field.Request, Field.Response]
    case PollChild =>
      [Field.Request, Field.Response]
    case AdminAction =>
      [Field.Request, Field.Response]
    case RunDetached =>
      [Field.DetachedName, Field.DetachedInput, Field.DetachedRunID]
    case AcquireLock =>
      [Field.LockAcquired, Field.LockTTLMs, Field.LockKey]
    case ReleaseLock =>
      [Field.LockKey]
    case PluginCallStreamChunk =>
      [Field.StreamChunkIndex, Field.StreamFinish, Field.StreamErrCode, Field.PluginName,
       Field.PluginFunc, Field.PluginInput, Field.PluginOutput, Field.PluginError]
    case SideEffect =>
      [Field.SideEffectResult]
    case ScopeAcquired =>
      [Field.ScopeKey]
    case Fetch =>
      [Field.FetchMethod, Field.FetchURL, Field.FetchHeaders, Field.FetchResponse, Field.Err,
       Field.FetchBody]
    case DurableLog =>
      [Field.LogLevel, Field.LogKV, Field.Message]
    case DurableSend =>
      [Field.Service, Field.Op, Field.Request]
    case DurableScheduleInvoke =>
      [Field.Service, Field.Op, Field.Request, Field.DurationMs]
    case ScheduleCron =>
      [Field.CronExpr, Field.CronTimezone, Field.CronResult, Field.Err, Field.CronWorkflowName,
       Field.CronInput, Field.CronScheduleID]
    case DeleteCron =>
      [Field.CronExpr, Field.CronTimezone, Field.CronResult, Field.Err, Field.CronWorkflowName,
       Field.CronInput, Field.CronScheduleID]
    case ListCrons =>
      [Field.CronExpr, Field.CronTimezone, Field.CronResult, Field.Err, Field.CronWorkflowName,
       Field.CronInput, Field.CronScheduleID]
    case _ => []
  }

  /** The fields an event of this type is recorded with and that compaction drops. */
  function Dropped(t: EventType): seq<Field> {
    match t
    case Call =>
      [Field.Pending]
    case SignalReceived =>
      [Field.RunID]
    case AwaitAllChildren =>
      [Field.Request]
    case PluginCall =>
      [Field.Idempotent, Field.SameValueOnReplay]
    case AwaitPromise =>
      [Field.TimeoutMs]
    case AdminAction =>
      [Field.Service, Field.Op, Field.Err, Field.ReplacedStatus, Field.ReplacedErrorMsg,
       Field.ReplacedErrorCode, Field.ReplacedErrorOp, Field.ReplacedCompletedAt]
    case AcquireLock =>
      [Field.Err]
    case ReleaseLock =>
      [Field.Err, Field.LockNotHeld]
    case ScopeAcquired =>
      [Field.Err]
    case _ => []
  }

  /** The fields replay looks at when it comes to an event of this type. */
  function Read(t: EventType): seq<Field> {
    match t
    case Call =>
      [Field.Service, Field.Op, Field.Request, Field.Response, Field.Err, Field.ErrNonRetryable,
       Field.Pending]
    case AwaitSignals =>
      [Field.SignalNames, Field.TimeoutMs]
    case SignalReceived =>
      [Field.SignalName, Field.SignalPayload]
    case Defer =>
      [Field.DeferID, Field.DeferDescription]
    case ChildWorkflow =>
      [Field.RunID]
    case AwaitChild =>
      [Field.Response, Field.Err]
    case ContinueAsNew =>
      [Field.NewInput, Field.NewVersion]
    case AwaitAllChildren =>
      [Field.Request, Field.Response]
    case PluginCall =>
      [Field.PluginName, Field.PluginFunc, Field.PluginOutput, Field.PluginError, Field.Idempotent,
       Field.SameValueOnReplay]
    case CreatePromise =>
      [Field.PromiseID]
    case AwaitPromise =>
      [Field.TimeoutMs]
    case PromiseResolved =>
      [Field.PromiseResult]
    case PromiseRejected =>
      [Field.PromiseError]
    case UpdateReceived =>
      [Field.UpdateHandlerName, Field.UpdatePayload, Field.UpdateRequestID]
    case AwaitAnyChild =>
      [Field.Request, Field.Response]
    case RunDetached =>
      [Field.DetachedName, Field.DetachedRunID]
    case AcquireLock =>
      [Field.Err, Field.LockAcquired]
    case ReleaseLock =>
      [Field.Err]
    case PluginCallStreamChunk =>
      [Field.StreamChunkIndex, Field.PluginOutput, Field.StreamFinish, Field.StreamErrCode]
    case SideEffect =>
      [Field.SideEffectResult]
    case ScopeAcquired =>
      [Field.Err]
    case Fetch =>
      [Field.FetchMethod, Field.FetchURL, Field.FetchBody, Field.FetchResponse, Field.Err]
    case ScheduleCron =>
      [Field.CronWorkflowName, Field.CronExpr, Field.CronTimezone, Field.CronInput, Field.CronScheduleID,
       Field.Err]
    case DeleteCron =>
      [Field.CronScheduleID, Field.Err]
    case ListCrons =>
      [Field.CronResult, Field.Err]
    case _ => []
  }

  predicate Recorded(t: EventType, f: Field) {
    f in Kept(t) || f in Dropped(t)
  }

  // ---- The codec's arms against the tables -----------------------------------------------------

  /** The arm stores exactly these fields, in this order. */
  predicate Stores(arm: seq<Copy>, fields: seq<Field>) {
    |arm| == |fields| && forall i :: 0 <= i < |arm| ==> arm[i].field == fields[i]
  }

  lemma {:induction false} StoresCarries(t: EventType, fields: seq<Field>, f: Field)
    requires Stores(ExtractArm(t), fields)
    ensures Carries(t, f) <==> f in fields
  {
    if f in fields {
      var i :| 0 <= i < |fields| && fields[i] == f;
      assert ExtractArm(t)[i].field == f;
    }
  }

  lemma {:induction false} EarlyArms(t: EventType)
    requires 1 <= CodeOf(t) <= 9
    ensures Stores(ExtractArm(t), Kept(t))
  {
  }

  lemma {:induction false} PromiseArms(t: EventType)
    requires 10 <= CodeOf(t) <= 16
    ensures Stores(ExtractArm(t), Kept(t))
  {
  }

  lemma {:induction false} LockArms(t: EventType)
    requires 17 <= CodeOf(t) <= 19
    ensures Stores(ExtractArm(t), Kept(t))
  {
  }

  lemma {:induction false} StreamArm()
    ensures Stores(ExtractArm(PluginCallStreamChunk), Kept(PluginCallStreamChunk))
  {
  }

  lemma {:induction false} EffectArms(t: EventType)
    requires 21 <= CodeOf(t) <= 26
    ensures Stores(ExtractArm(t), Kept(t))
  {
  }

  lemma {:induction false} CronArms(t: EventType)
    requires 27 <= CodeOf(t) <= 29
    ensures Stores(ExtractArm(t), Kept(t))
  {
  }

  lemma {:induction false} LateArms(t: EventType)
    requires 30 <= CodeOf(t) <= 36
    ensures Stores(ExtractArm(t), Kept(t))
  {
  }

  /** Extraction stores exactly the fields that are to be kept. */
  lemma {:induction false} ArmsKeep(t: EventType)
    requires Compactable(t)
    ensures Stores(ExtractArm(t), Kept(t))
  {
    var code := CodeOf(t);
    if code <= 9 { EarlyArms(t); }
    else if code <= 16 { PromiseArms(t); }
    else if code <= 19 { LockArms(t); }
    else if code == 20 { StreamArm(); }
    else if code <= 26 { EffectArms(t); }
    else if code <= 29 { CronArms(t); }
    else { LateArms(t); }
  }

  lemma {:induction false} DroppedIsNotKept(t: EventType, f: Field)
    requires f in Dropped(t)
    ensures f !in Kept(t)
  {
  }

  lemma {:induction false} EarlyReads(t: EventType, f: Field)
    requires CodeOf(t) <= 16 && f in Read(t)
    ensures Recorded(t, f)
  {
  }

  lemma {:induction false} LateReads(t: EventType, f: Field)
    requires CodeOf(t) > 16 && f in Read(t)
    ensures Recorded(t, f)
  {
  }

  /** Replay looks at nothing that is not recorded. */
  lemma {:induction false} ReadIsRecorded(t: EventType, f: Field)
    requires f in Read(t)
    ensures Recorded(t, f)
  {
    if CodeOf(t) <= 16 { EarlyReads(t, f); } else { LateReads(t, f); }
  }

  // ---- What survives ---------------------------------------------------------------------------

  /** A field of a compacted event: kept as it was, or cleared. */
  lemma {:induction false} FieldAfter(ev: EventRecord, i: nat, f: Field)
    requires Compactable(ev.kind) && Typed(ev)
    ensures Restore(i, Compact(ev)).kind == ev.kind
    ensures Restore(i, Compact(ev)).fields(f) == if f in Kept(ev.kind) then ev.fields(f) else Zero(f)
  {
    ArmsKeep(ev.kind);
    StoresCarries(ev.kind, Kept(ev.kind), f);
    RestoreCompact(ev, i, f);
  }

  /** `back` has the kept fields of the event, and no other. */
  ghost predicate KeepsFields(ev: EventRecord, back: EventRecord) {
    back.kind == ev.kind && forall f :: back.fields(f) == if f in Kept(ev.kind) then ev.fields(f) else Zero(f)
  }

  lemma {:induction false} RestoredFields(ev: EventRecord, i: nat) returns (back: EventRecord)
    requires Compactable(ev.kind) && Typed(ev)
    ensures back == Restore(i, Compact(ev)) && KeepsFields(ev, back)
  {
    back := Restore(i, Compact(ev));
    forall f ensures back.fields(f) == if f in Kept(ev.kind) then ev.fields(f) else Zero(f) { FieldAfter(ev, i, f); }
    FieldAfter(ev, i, Pending);
  }

  /** The fields of this event that compaction drops hold nothing. */
  ghost predicate NothingToDrop(ev: EventRecord) {
    forall f :: f in Dropped(ev.kind) ==> ev.fields(f) == Zero(f)
  }

  /** Those of them that replay would look at hold nothing. */
  ghost predicate NothingToMiss(ev: EventRecord) {
    forall f :: f in Read(ev.kind) && f in Dropped(ev.kind) ==> ev.fields(f) == Zero(f)
  }

  ghost predicate SameFields(ev: EventRecord, back: EventRecord, fields: seq<Field>) {
    forall f :: f in fields ==> back.fields(f) == ev.fields(f)
  }

  /** Everything an event is recorded with comes back from compaction if and only if the fields it drops
      hold nothing. */
  lemma {:induction false} RecordedSurvives(ev: EventRecord, i: nat)
    requires Compactable(ev.kind) && Typed(ev)
    ensures (forall f :: Recorded(ev.kind, f) ==> Restore(i, Compact(ev)).fields(f) == ev.fields(f)) <==> NothingToDrop(ev)
  {
    var back := Restore(i, Compact(ev));
    forall f ensures Recorded(ev.kind, f) ==>
                       (back.fields(f) == ev.fields(f) <==> (f in Dropped(ev.kind) ==> ev.fields(f) == Zero(f)))
    {
      FieldAfter(ev, i, f);
      if f in Dropped(ev.kind) { DroppedIsNotKept(ev.kind, f); }
    }
    assert forall f :: f in Dropped(ev.kind) ==> Recorded(ev.kind, f);
  }

  /** What replay looks at comes back if and only if it is not one of the fields that are dropped, or that
      field holds nothing. */
  lemma {:induction false} ReadsSurvive(ev: EventRecord, i: nat)
    requires Compactable(ev.kind) && Typed(ev)
    ensures SameFields(ev, Restore(i, Compact(ev)), Read(ev.kind)) <==> NothingToMiss(ev)
  {
    var back := Restore(i, Compact(ev));
    forall f | f in Read(ev.kind)
      ensures back.fields(f) == ev.fields(f) <==> (f in Dropped(ev.kind) ==> ev.fields(f) == Zero(f))
    {
      FieldAfter(ev, i, f);
      ReadIsRecorded(ev.kind, f);
      if f in Dropped(ev.kind) { DroppedIsNotKept(ev.kind, f); }
    }
  }

  /** Over a whole history, within the cap: replay finds what it looks at in every record if and only if no
      compacted record has anything of it to miss. */
  lemma {:induction false} HistoryReadsSurvive(rows: seq<EventRecord>, keep: nat)
    requires keep <= |rows| && keep <= MAX_COMPACTED_EVENTS && CompactableAll(rows[..keep])
    ensures |Rebuilt(rows, keep)| == |rows|
    ensures (forall i :: 0 <= i < |rows| ==> SameFields(rows[i], Rebuilt(rows, keep)[i], Read(rows[i].kind)))
       <==> (forall i :: 0 <= i < keep ==> NothingToMiss(rows[i]))
  {
    var full := Rebuilt(rows, keep);
    forall i | 0 <= i < keep
      ensures SameFields(rows[i], full[i], Read(rows[i].kind)) <==> NothingToMiss(rows[i])
    {
      assert rows[..keep][i] == rows[i] && full[i] == Restore(i, Compact(rows[i]));
      ReadsSurvive(rows[i], i);
    }
    assert forall i :: keep <= i < |rows| ==> full[i] == rows[i];
  }

  // ---- What the guest is told --------------------------------------------------------------------

  /** A replayed call: its outcome is unknown while its intent is pending, then it is its error or its
      response. */
  datatype CallReply = Ambiguous | Failed(error: string, nonRetryable: bool) | Returned(text: string)

  function ReplyOf(ev: EventRecord): CallReply {
    if ev.fields(Pending) == Flag(true) then Ambiguous
    else if TextAt(ev, Field.Err) != "" then Failed(TextAt(ev, Field.Err), ev.fields(Field.ErrNonRetryable) == Flag(true))
    else Returned(TextAt(ev, Field.Response))
  }

  /** A compacted call is answered as before if and only if it was not pending; a pending one is answered as
      if it had returned. */
  lemma {:induction false} CompactedCallReplays(ev: EventRecord, i: nat)
    requires ev.kind == Call && Typed(ev)
    ensures ReplyOf(Restore(i, Compact(ev))) == ReplyOf(ev) <==> ev.fields(Pending) != Flag(true)
    ensures ReplyOf(ev) == Ambiguous && TextAt(ev, Field.Err) == "" ==>
              ReplyOf(Restore(i, Compact(ev))) == Returned(TextAt(ev, Field.Response))
  {
    var back := RestoredFields(ev, i);
    SameReply(ev, back);
  }

  lemma {:induction false} SameReply(ev: EventRecord, back: EventRecord)
    requires ev.kind == Call && Typed(ev) && KeepsFields(ev, back)
    ensures ReplyOf(back) == ReplyOf(ev) <==> ev.fields(Pending) != Flag(true)
    ensures TextAt(ev, Field.Err) == "" ==> ReplyOf(back) == Returned(TextAt(ev, Field.Response))
  {
    assert Kept(Call)[3] == Field.Response && Kept(Call)[4] == Field.Err && Kept(Call)[6] == Field.ErrNonRetryable;
    assert Pending !in Kept(Call);
  }

  /** What a replayed lock or scope call says: an error, or whether the lock was taken. */
  datatype LockReply = LockError | Taken | NotTaken

  function LockReplyOf(ev: EventRecord): LockReply {
    if TextAt(ev, Field.Err) != "" then LockError
    else if ev.kind == AcquireLock && NumberOf(ev.fields(LockAcquired)) == 0 then NotTaken
    else Taken
  }

  /** A compacted acquire, release or scope event is answered as before if and only if it did not fail. */
  lemma {:induction false} CompactedLockReplays(ev: EventRecord, i: nat)
    requires (ev.kind == AcquireLock || ev.kind == ReleaseLock || ev.kind == ScopeAcquired) && Typed(ev)
    ensures LockReplyOf(Restore(i, Compact(ev))) == LockReplyOf(ev) <==> TextAt(ev, Field.Err) == ""
  {
    var back := RestoredFields(ev, i);
    SameLockReply(ev, back);
  }

  lemma {:induction false} SameLockReply(ev: EventRecord, back: EventRecord)
    requires (ev.kind == AcquireLock || ev.kind == ReleaseLock || ev.kind == ScopeAcquired) && KeepsFields(ev, back)
    ensures LockReplyOf(back) == LockReplyOf(ev) <==> TextAt(ev, Field.Err) == ""
  {
    assert Field.Err !in Kept(ev.kind) && Kept(AcquireLock)[0] == LockAcquired;
  }

  /** An await of a promise that is replayed at `now` without its resolution has timed out once the deadline
      it was recorded with has passed. */
  predicate TimedOut(ev: EventRecord, now: int) {
    NumberOf(ev.fields(Field.TimeoutMs)) > 0 && now >= ev.timestampMs + NumberOf(ev.fields(Field.TimeoutMs))
  }

  /** Once compacted it has no deadline: it never times out, whatever it did before. */
  lemma {:induction false} CompactedAwaitPromiseReplays(ev: EventRecord, i: nat, now: int)
    requires ev.kind == AwaitPromise && Typed(ev)
    ensures !TimedOut(Restore(i, Compact(ev)), now)
  {
    FieldAfter(ev, i, Field.TimeoutMs);
  }
}
