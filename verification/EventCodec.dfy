/**
 The compaction codec: how one event is stored in compacted form and restored. The two sides are
 written separately, as the extraction and the reconstruction switch are, and share storage slots
 between event types; the round trip is what ties them together.
 */
module EventCodec {

  datatype EventType =
    | Call | CallAttemptFailed | AwaitSignals | SignalReceived | Defer | ChildWorkflow
    | AwaitChild | ContinueAsNew | Heartbeat | AwaitAllChildren | PluginCall | CreatePromise
    | AwaitPromise | PromiseResolved | PromiseRejected | UpdateHandler | UpdateReceived | UpdateCompleted
    | StateMutation | AwaitAnyChild | PollChild | AdminAction | RunDetached | AcquireLock
    | ReleaseLock | PluginCallStreamChunk | SideEffect | ScopeAcquired | Fetch | DurableLog
    | DurableSend | DurableScheduleInvoke | ScheduleCron | DeleteCron | ListCrons
    | Unlisted(name: string)

  /** The payload fields of an event record. */
  datatype Field =
    | Service | Op | Request | Response | Err | ErrNonRetryable | ErrCode | RetriesExhausted | ResolvedBy
    | Pending | DurationMs | SignalNames | TimeoutMs | SignalName | SignalPayload | DeferDescription
    | DeferID | InDeferPhase | PromiseName | PromiseID | PromiseResult | PromiseError | ChildName
    | ChildInput | RunID | ParentWorkflowID | ParentClosePolicy | NewInput | NewVersion | PluginName
    | PluginFunc | PluginInput | PluginOutput | PluginError | Idempotent | SameValueOnReplay
    | StreamChunkIndex | StreamFinish | StreamErrCode | UpdateHandlerName | UpdatePayload | UpdateResponse
    | UpdateError | UpdateRequestID | StateKey | StateValue | StateDelta | StateOp | StateKeys | FetchMethod
    | FetchURL | FetchHeaders | FetchBody | FetchResponse | CronWorkflowName | CronExpr | CronTimezone
    | CronInput | CronScheduleID | CronResult | DetachedName | DetachedInput | DetachedRunID | LockKey
    | LockTTLMs | LockAcquired | Attempt | LockNotHeld | ReplacedStatus | ReplacedErrorMsg
    | ReplacedErrorCode | ReplacedErrorOp | ReplacedCompletedAt | SideEffectResult | ScopeKey | Message
    | LogLevel | LogKV

  /** The storage slots of a compacted event. */
  datatype Slot =
    | Service | Op | Request | Response | Error | DurationMs | SignalNames | TimeoutMs | SignalName
    | SignalPayload | DeferID | DeferDesc | ChildName | ChildInput | RunID | NewInput | PromiseName
    | PromiseID | PromiseResult | PromiseError | ErrNonRetryable | ErrCode | RetriesExhausted | ResolvedBy
    | NewVersion | StreamChunkIndex | StreamFinish | StreamErrCode | StateKeys | ParentWorkflowID
    | ParentClosePolicy | PluginName | PluginFunc | PluginInput | PluginOutput | PluginError

  datatype Value = Text(text: string) | Number(n: int) | Flag(on: bool)

  datatype EventRecord = EventRecord(step: nat, kind: EventType, timestampMs: int, fields: Field -> Value)

  datatype CompactedEvent = CompactedEvent(code: int, timestampMs: int, slots: Slot -> Value)

  function TextOf(v: Value): string {
    if v.Text? then v.text else ""
  }

  function NumberOf(v: Value): int {
    if v.Number? then v.n else 0
  }

  /** The zero value of each field, which also fixes its type. */
  function Zero(f: Field): Value {
    match f
    case DurationMs | TimeoutMs | NewVersion | StreamChunkIndex | StreamErrCode | StateDelta | LockTTLMs
       | LockAcquired | Attempt => Number(0)
    case ErrNonRetryable | RetriesExhausted | Pending | InDeferPhase | Idempotent | SameValueOnReplay
       | StreamFinish | LockNotHeld => Flag(false)
    case _ => Text("")
  }

  function ZeroSlot(s: Slot): Value {
    match s
    case DurationMs | TimeoutMs | NewVersion | StreamChunkIndex | StreamErrCode => Number(0)
    case ErrNonRetryable | RetriesExhausted | StreamFinish => Flag(false)
    case _ => Text("")
  }

  /** Every field of the record holds a value of its own type. */
  ghost predicate Typed(ev: EventRecord) {
    forall f :: SameType(ev.fields(f), Zero(f))
  }

  predicate SameType(a: Value, b: Value) {
    a.Text? == b.Text? && a.Number? == b.Number?
  }

  // ---- The code tables -------------------------------------------------------------------

  const INVALID_CODE := 0

  function CodeOf(t: EventType): int {
    match t
    case Call => 30 case CallAttemptFailed => 36 case AwaitSignals => 2 case SignalReceived => 3
    case Defer => 4 case ChildWorkflow => 5 case AwaitChild => 6 case ContinueAsNew => 7 case Heartbeat => 8
    case AwaitAllChildren => 9 case PluginCall => 10 case CreatePromise => 11 case AwaitPromise => 12
    case PromiseResolved => 13 case PromiseRejected => 14 case UpdateHandler => 15 case UpdateReceived => 34
    case UpdateCompleted => 35 case StateMutation => 16 case AwaitAnyChild => 31 case PollChild => 32
    case AdminAction => 33 case RunDetached => 17 case AcquireLock => 18 case ReleaseLock => 19
    case PluginCallStreamChunk => 20 case SideEffect => 21 case ScopeAcquired => 22 case Fetch => 23
    case DurableLog => 24 case DurableSend => 25 case DurableScheduleInvoke => 26 case ScheduleCron => 27
    case DeleteCron => 28 case ListCrons => 29 case Unlisted(_) => INVALID_CODE
  }

  function TypeOf(code: int): EventType {
    match code
    case 2 => AwaitSignals case 3 => SignalReceived case 4 => Defer case 5 => ChildWorkflow
    case 6 => AwaitChild case 7 => ContinueAsNew case 8 => Heartbeat case 9 => AwaitAllChildren
    case 10 => PluginCall case 11 => CreatePromise case 12 => AwaitPromise case 13 => PromiseResolved
    case 14 => PromiseRejected case 15 => UpdateHandler case 16 => StateMutation case 17 => RunDetached
    case 18 => AcquireLock case 19 => ReleaseLock case 20 => PluginCallStreamChunk case 21 => SideEffect
    case 22 => ScopeAcquired case 23 => Fetch case 24 => DurableLog case 25 => DurableSend
    case 26 => DurableScheduleInvoke case 27 => ScheduleCron case 28 => DeleteCron case 29 => ListCrons
    case 30 => Call case 31 => AwaitAnyChild case 32 => PollChild case 33 => AdminAction
    case 34 => UpdateReceived case 35 => UpdateCompleted case 36 => CallAttemptFailed case _ => Unlisted("")
  }

  /** One assignment of an arm: this slot holds this field. */
  datatype Copy = Copy(slot: Slot, field: Field)

  /** Extraction: what an event of this type stores. */
  function ExtractArm(t: EventType): seq<Copy> {
    match t
    case Call =>
      [Copy(Slot.Service, Field.Service), Copy(Slot.Op, Field.Op), Copy(Slot.Request, Field.Request),
       Copy(Slot.Response, Field.Response), Copy(Slot.Error, Field.Err),
       Copy(Slot.DurationMs, Field.DurationMs), Copy(Slot.ErrNonRetryable, Field.ErrNonRetryable),
       Copy(Slot.ErrCode, Field.ErrCode), Copy(Slot.RetriesExhausted, Field.RetriesExhausted),
       Copy(Slot.ResolvedBy, Field.ResolvedBy)]
    case AwaitSignals =>
      [Copy(Slot.SignalNames, Field.SignalNames), Copy(Slot.TimeoutMs, Field.TimeoutMs)]
    case SignalReceived =>
      [Copy(Slot.SignalName, Field.SignalName), Copy(Slot.SignalPayload, Field.SignalPayload)]
    case Defer =>
      [Copy(Slot.DeferID, Field.DeferID), Copy(Slot.DeferDesc, Field.DeferDescription)]
    case ChildWorkflow =>
      [Copy(Slot.ChildName, Field.ChildName), Copy(Slot.ChildInput, Field.ChildInput),
       Copy(Slot.RunID, Field.RunID), Copy(Slot.ParentWorkflowID, Field.ParentWorkflowID),
       Copy(Slot.ParentClosePolicy, Field.ParentClosePolicy)]
    case AwaitChild =>
      [Copy(Slot.Response, Field.Response), Copy(Slot.Error, Field.Err), Copy(Slot.RunID, Field.RunID)]
    case ContinueAsNew =>
      [Copy(Slot.NewInput, Field.NewInput), Copy(Slot.NewVersion, Field.NewVersion)]
    case Heartbeat =>
      [Copy(Slot.Service, Field.Service), Copy(Slot.Op, Field.Op)]
    case AwaitAllChildren =>
      [Copy(Slot.Response, Field.Response)]
    case PluginCall =>
      [Copy(Slot.PluginName, Field.PluginName), Copy(Slot.PluginFunc, Field.PluginFunc),
       Copy(Slot.PluginInput, Field.PluginInput), Copy(Slot.PluginOutput, Field.PluginOutput),
       Copy(Slot.PluginError, Field.PluginError)]
    case CreatePromise =>
      [Copy(Slot.PromiseName, Field.PromiseName), Copy(Slot.PromiseID, Field.PromiseID)]
    case AwaitPromise =>
      [Copy(Slot.PromiseID, Field.PromiseID)]
    case PromiseResolved =>
      [Copy(Slot.PromiseID, Field.PromiseID), Copy(Slot.PromiseResult, Field.PromiseResult)]
    case PromiseRejected =>
      [Copy(Slot.PromiseID, Field.PromiseID), Copy(Slot.PromiseError, Field.PromiseError)]
    case UpdateHandler =>
      [Copy(Slot.PromiseName, Field.UpdateHandlerName)]
    case UpdateReceived =>
      [Copy(Slot.Request, Field.UpdatePayload), Copy(Slot.PromiseName, Field.UpdateHandlerName),
       Copy(Slot.PromiseID, Field.UpdateRequestID)]
    case UpdateCompleted =>
      [Copy(Slot.Response, Field.UpdateResponse), Copy(Slot.Error, Field.UpdateError),
       Copy(Slot.PromiseName, Field.UpdateHandlerName), Copy(Slot.PromiseID, Field.UpdateRequestID)]
    case StateMutation =>
      [Copy(Slot.Response, Field.StateValue), Copy(Slot.DurationMs, Field.StateDelta),
       Copy(Slot.ChildName, Field.StateKey), Copy(Slot.PromiseName, Field.StateOp),
       Copy(Slot.StateKeys, Field.StateKeys)]
    case AwaitAnyChild | PollChild =>
      [Copy(Slot.Request, Field.Request), Copy(Slot.Response, Field.Response)]
    case AdminAction =>
      [Copy(Slot.Request, Field.Request), Copy(Slot.Response, Field.Response)]
    case RunDetached =>
      [Copy(Slot.ChildName, Field.DetachedName), Copy(Slot.ChildInput, Field.DetachedInput),
       Copy(Slot.RunID, Field.DetachedRunID)]
    case AcquireLock =>
      [Copy(Slot.Response, Field.LockAcquired), Copy(Slot.DurationMs, Field.LockTTLMs),
       Copy(Slot.ChildName, Field.LockKey)]
    case ReleaseLock =>
      [Copy(Slot.ChildName, Field.LockKey)]
    case PluginCallStreamChunk =>
      [Copy(Slot.StreamChunkIndex, Field.StreamChunkIndex), Copy(Slot.StreamFinish, Field.StreamFinish),
       Copy(Slot.StreamErrCode, Field.StreamErrCode), Copy(Slot.PluginName, Field.PluginName),
       Copy(Slot.PluginFunc, Field.PluginFunc), Copy(Slot.PluginInput, Field.PluginInput),
       Copy(Slot.PluginOutput, Field.PluginOutput), Copy(Slot.PluginError, Field.PluginError)]
    case SideEffect =>
      [Copy(Slot.Response, Field.SideEffectResult)]
    case ScopeAcquired =>
      [Copy(Slot.ChildName, Field.ScopeKey)]
    case Fetch =>
      [Copy(Slot.Service, Field.FetchMethod), Copy(Slot.Op, Field.FetchURL),
       Copy(Slot.Request, Field.FetchHeaders), Copy(Slot.Response, Field.FetchResponse),
       Copy(Slot.Error, Field.Err), Copy(Slot.ChildInput, Field.FetchBody)]
    case DurableLog =>
      [Copy(Slot.Service, Field.LogLevel), Copy(Slot.Op, Field.LogKV), Copy(Slot.Response, Field.Message)]
    case DurableSend =>
      [Copy(Slot.Service, Field.Service), Copy(Slot.Op, Field.Op), Copy(Slot.Request, Field.Request)]
    case DurableScheduleInvoke =>
      [Copy(Slot.Service, Field.Service), Copy(Slot.Op, Field.Op), Copy(Slot.Request, Field.Request),
       Copy(Slot.DurationMs, Field.DurationMs)]
    case ScheduleCron | DeleteCron | ListCrons =>
      [Copy(Slot.Service, Field.CronExpr), Copy(Slot.Op, Field.CronTimezone),
       Copy(Slot.Response, Field.CronResult), Copy(Slot.Error, Field.Err),
       Copy(Slot.ChildName, Field.CronWorkflowName), Copy(Slot.ChildInput, Field.CronInput),
       Copy(Slot.RunID, Field.CronScheduleID)]
    case _ => []
  }

  /** Reconstruction: what an event of this code restores. */
  function RestoreArm(code: int): seq<Copy> {
    match code
    case 30 =>
      [Copy(Slot.Service, Field.Service), Copy(Slot.Op, Field.Op), Copy(Slot.Request, Field.Request),
       Copy(Slot.Response, Field.Response), Copy(Slot.Error, Field.Err),
       Copy(Slot.DurationMs, Field.DurationMs), Copy(Slot.ErrNonRetryable, Field.ErrNonRetryable),
       Copy(Slot.ErrCode, Field.ErrCode), Copy(Slot.RetriesExhausted, Field.RetriesExhausted),
       Copy(Slot.ResolvedBy, Field.ResolvedBy)]
    case 2 =>
      [Copy(Slot.SignalNames, Field.SignalNames), Copy(Slot.TimeoutMs, Field.TimeoutMs)]
    case 3 =>
      [Copy(Slot.SignalName, Field.SignalName), Copy(Slot.SignalPayload, Field.SignalPayload)]
    case 4 =>
      [Copy(Slot.DeferID, Field.DeferID), Copy(Slot.DeferDesc, Field.DeferDescription)]
    case 5 =>
      [Copy(Slot.ChildName, Field.ChildName), Copy(Slot.ChildInput, Field.ChildInput),
       Copy(Slot.RunID, Field.RunID), Copy(Slot.ParentWorkflowID, Field.ParentWorkflowID),
       Copy(Slot.ParentClosePolicy, Field.ParentClosePolicy)]
    case 6 =>
      [Copy(Slot.Response, Field.Response), Copy(Slot.Error, Field.Err), Copy(Slot.RunID, Field.RunID)]
    case 7 =>
      [Copy(Slot.NewInput, Field.NewInput), Copy(Slot.NewVersion, Field.NewVersion)]
    case 8 =>
      [Copy(Slot.Service, Field.Service), Copy(Slot.Op, Field.Op)]
    case 9 =>
      [Copy(Slot.Response, Field.Response)]
    case 10 =>
      [Copy(Slot.PluginName, Field.PluginName), Copy(Slot.PluginFunc, Field.PluginFunc),
       Copy(Slot.PluginInput, Field.PluginInput), Copy(Slot.PluginOutput, Field.PluginOutput),
       Copy(Slot.PluginError, Field.PluginError)]
    case 11 =>
      [Copy(Slot.PromiseName, Field.PromiseName), Copy(Slot.PromiseID, Field.PromiseID)]
    case 12 =>
      [Copy(Slot.PromiseID, Field.PromiseID)]
    case 13 =>
      [Copy(Slot.PromiseID, Field.PromiseID), Copy(Slot.PromiseResult, Field.PromiseResult)]
    case 14 =>
      [Copy(Slot.PromiseID, Field.PromiseID), Copy(Slot.PromiseError, Field.PromiseError)]
    case 15 =>
      [Copy(Slot.PromiseName, Field.UpdateHandlerName)]
    case 34 =>
      [Copy(Slot.Request, Field.UpdatePayload), Copy(Slot.PromiseName, Field.UpdateHandlerName),
       Copy(Slot.PromiseID, Field.UpdateRequestID)]
    case 35 =>
      [Copy(Slot.Response, Field.UpdateResponse), Copy(Slot.Error, Field.UpdateError),
       Copy(Slot.PromiseName, Field.UpdateHandlerName), Copy(Slot.PromiseID, Field.UpdateRequestID)]
    case 16 =>
      [Copy(Slot.Response, Field.StateValue), Copy(Slot.DurationMs, Field.StateDelta),
       Copy(Slot.ChildName, Field.StateKey), Copy(Slot.PromiseName, Field.StateOp),
       Copy(Slot.StateKeys, Field.StateKeys)]
    case 31 | 32 =>
      [Copy(Slot.Request, Field.Request), Copy(Slot.Response, Field.Response)]
    case 33 =>
      [Copy(Slot.Request, Field.Request), Copy(Slot.Response, Field.Response)]
    case 17 =>
      [Copy(Slot.ChildName, Field.DetachedName), Copy(Slot.ChildInput, Field.DetachedInput),
       Copy(Slot.RunID, Field.DetachedRunID)]
    case 18 =>
      [Copy(Slot.Response, Field.LockAcquired), Copy(Slot.DurationMs, Field.LockTTLMs),
       Copy(Slot.ChildName, Field.LockKey)]
    case 19 =>
      [Copy(Slot.ChildName, Field.LockKey)]
    case 20 =>
      [Copy(Slot.StreamChunkIndex, Field.StreamChunkIndex), Copy(Slot.StreamFinish, Field.StreamFinish),
       Copy(Slot.StreamErrCode, Field.StreamErrCode), Copy(Slot.PluginName, Field.PluginName),
       Copy(Slot.PluginFunc, Field.PluginFunc), Copy(Slot.PluginInput, Field.PluginInput),
       Copy(Slot.PluginOutput, Field.PluginOutput), Copy(Slot.PluginError, Field.PluginError)]
    case 21 =>
      [Copy(Slot.Response, Field.SideEffectResult)]
    case 22 =>
      [Copy(Slot.ChildName, Field.ScopeKey)]
    case 23 =>
      [Copy(Slot.Service, Field.FetchMethod), Copy(Slot.Op, Field.FetchURL),
       Copy(Slot.Request, Field.FetchHeaders), Copy(Slot.Response, Field.FetchResponse),
       Copy(Slot.Error, Field.Err), Copy(Slot.ChildInput, Field.FetchBody)]
    case 24 =>
      [Copy(Slot.Service, Field.LogLevel), Copy(Slot.Op, Field.LogKV), Copy(Slot.Response, Field.Message)]
    case 25 =>
      [Copy(Slot.Service, Field.Service), Copy(Slot.Op, Field.Op), Copy(Slot.Request, Field.Request)]
    case 26 =>
      [Copy(Slot.Service, Field.Service), Copy(Slot.Op, Field.Op), Copy(Slot.Request, Field.Request),
       Copy(Slot.DurationMs, Field.DurationMs)]
    case 27 | 28 | 29 =>
      [Copy(Slot.Service, Field.CronExpr), Copy(Slot.Op, Field.CronTimezone),
       Copy(Slot.Response, Field.CronResult), Copy(Slot.Error, Field.Err),
       Copy(Slot.ChildName, Field.CronWorkflowName), Copy(Slot.ChildInput, Field.CronInput),
       Copy(Slot.RunID, Field.CronScheduleID)]
    case _ => []
  }

  /** Extraction has an arm for this type. A type with a code and no arm is refused like one
      without a code. */
  predicate Compactable(t: EventType) {
    CodeOf(t) != INVALID_CODE && t != CallAttemptFailed
  }

  // ---- Decimal text ------------------------------------------------------------------------

  function Digit(d: nat): char
    requires d < 10
  {
    ('0' as int + d) as char
  }

  predicate IsDigit(c: char) {
    '0' <= c <= '9'
  }

  function PrintNat(n: nat): string {
    if n < 10 then [Digit(n)] else PrintNat(n / 10) + [Digit(n % 10)]
  }

  function Print(n: int): string {
    if n < 0 then "-" + PrintNat(-n) else PrintNat(n)
  }

  /** The value of the digits at the front of the text, read on from `acc`. */
  function ScanNat(acc: nat, s: string): nat
    decreases |s|
  {
    if s == "" || !IsDigit(s[0]) then acc else ScanNat(10 * acc + (s[0] as int - '0' as int), s[1..])
  }

  /** An optional sign and a run of digits; text with no digits there scans as zero. */
  function Scan(s: string): int {
    if s != "" && s[0] == '-' then 0 - ScanNat(0, s[1..])
    else if s != "" && s[0] == '+' then ScanNat(0, s[1..])
    else ScanNat(0, s)
  }

  lemma {:induction false} ScanNatAppend(acc: nat, s: string, d: nat)
    requires d < 10 && (forall i :: 0 <= i < |s| ==> IsDigit(s[i]))
    ensures ScanNat(acc, s + [Digit(d)]) == 10 * ScanNat(acc, s) + d
    decreases |s|
  {
    if s == "" {
      assert s + [Digit(d)] == [Digit(d)];
      assert [Digit(d)][1..] == "";
    } else {
      assert (s + [Digit(d)])[1..] == s[1..] + [Digit(d)];
      ScanNatAppend(10 * acc + (s[0] as int - '0' as int), s[1..], d);
    }
  }

  lemma {:induction false} ScanPrintNat(n: nat)
    ensures forall i :: 0 <= i < |PrintNat(n)| ==> IsDigit(PrintNat(n)[i])
    ensures PrintNat(n) != "" && ScanNat(0, PrintNat(n)) == n
  {
    if n < 10 {
      assert [Digit(n)][1..] == "";
    } else {
      ScanPrintNat(n / 10);
      ScanNatAppend(0, PrintNat(n / 10), n % 10);
    }
  }

  lemma {:induction false} ScanPrint(n: int)
    ensures Scan(Print(n)) == n
  {
    ScanPrintNat(if n < 0 then -n else n);
    assert n < 0 ==> Print(n)[1..] == PrintNat(-n);
  }

  // ---- One event ---------------------------------------------------------------------------

  /** The lock flag is stored as decimal text; every other field as it is. */
  function Pack(f: Field, v: Value): Value {
    if f == LockAcquired then Text(Print(NumberOf(v))) else v
  }

  function Unpack(f: Field, v: Value): Value {
    if f == LockAcquired then Number(Scan(TextOf(v))) else v
  }

  /** The value of a slot after the assignments of an arm. */
  function Filled(arm: seq<Copy>, fields: Field -> Value, s: Slot): Value {
    if arm == [] then ZeroSlot(s)
    else
      var last := arm[|arm| - 1];
      if last.slot == s then Pack(last.field, fields(last.field)) else Filled(arm[..|arm| - 1], fields, s)
  }

  /** The value of a field after the assignments of an arm. */
  function Recovered(arm: seq<Copy>, slots: Slot -> Value, f: Field): Value {
    if arm == [] then Zero(f)
    else
      var last := arm[|arm| - 1];
      if last.field == f then Unpack(f, slots(last.slot)) else Recovered(arm[..|arm| - 1], slots, f)
  }

  function Compact(ev: EventRecord): CompactedEvent {
    CompactedEvent(CodeOf(ev.kind), ev.timestampMs, s => Filled(ExtractArm(ev.kind), ev.fields, s))
  }

  function Restore(i: nat, ce: CompactedEvent): EventRecord {
    EventRecord(i, TypeOf(ce.code), ce.timestampMs, f => Recovered(RestoreArm(ce.code), ce.slots, f))
  }

  /** The code tables are inverse on every listed type, and no listed type has the invalid code. */
  lemma {:induction false} CodesRoundTrip(t: EventType)
    ensures CodeOf(t) != INVALID_CODE <==> !t.Unlisted?
    ensures !t.Unlisted? ==> TypeOf(CodeOf(t)) == t
  {
  }

  /** The two switches agree on every type that has an arm. */
  lemma {:induction false} ArmsAgree(t: EventType)
    requires Compactable(t)
    ensures RestoreArm(CodeOf(t)) == ExtractArm(t)
  {
  }

  /** No slot is shared and no field is stored twice within the arm. */
  predicate Injective(arm: seq<Copy>) {
    forall i, j :: 0 <= i < j < |arm| ==> arm[i].slot != arm[j].slot && arm[i].field != arm[j].field
  }

  lemma {:induction false} EarlyInjective(t: EventType)
    requires CodeOf(t) <= 9
    ensures Injective(ExtractArm(t))
  {
  }

  lemma {:induction false} PromiseInjective(t: EventType)
    requires 10 <= CodeOf(t) <= 16
    ensures Injective(ExtractArm(t))
  {
  }

  lemma {:induction false} LockInjective(t: EventType)
    requires 17 <= CodeOf(t) <= 20
    ensures Injective(ExtractArm(t))
  {
  }

  lemma {:induction false} EffectInjective(t: EventType)
    requires 21 <= CodeOf(t) <= 26
    ensures Injective(ExtractArm(t))
  {
  }

  lemma {:induction false} CronInjective(t: EventType)
    requires 27 <= CodeOf(t) <= 29
    ensures Injective(ExtractArm(t))
  {
  }

  lemma {:induction false} LateInjective(t: EventType)
    requires 30 <= CodeOf(t)
    ensures Injective(ExtractArm(t))
  {
  }

  lemma {:induction false} ArmsInjective(t: EventType)
    ensures Injective(ExtractArm(t))
  {
    var code := CodeOf(t);
    if code <= 9 { EarlyInjective(t); }
    else if code <= 16 { PromiseInjective(t); }
    else if code <= 20 { LockInjective(t); }
    else if code <= 26 { EffectInjective(t); }
    else if code <= 29 { CronInjective(t); }
    else { LateInjective(t); }
  }

  /** Within an injective arm each slot holds the field stored in it. */
  lemma {:induction false} FilledAt(arm: seq<Copy>, fields: Field -> Value, i: nat)
    requires Injective(arm) && i < |arm|
    ensures Filled(arm, fields, arm[i].slot) == Pack(arm[i].field, fields(arm[i].field))
  {
    if i < |arm| - 1 { FilledAt(arm[..|arm| - 1], fields, i); }
  }

  lemma {:induction false} RecoveredAt(arm: seq<Copy>, slots: Slot -> Value, i: nat)
    requires Injective(arm) && i < |arm|
    ensures Recovered(arm, slots, arm[i].field) == Unpack(arm[i].field, slots(arm[i].slot))
  {
    if i < |arm| - 1 { RecoveredAt(arm[..|arm| - 1], slots, i); }
  }

  lemma {:induction false} NotRecovered(arm: seq<Copy>, slots: Slot -> Value, f: Field)
    requires forall i :: 0 <= i < |arm| ==> arm[i].field != f
    ensures Recovered(arm, slots, f) == Zero(f)
  {
    if arm != [] { NotRecovered(arm[..|arm| - 1], slots, f); }
  }

  predicate InArm(arm: seq<Copy>, f: Field) {
    exists i :: 0 <= i < |arm| && arm[i].field == f
  }

  /** Extraction stores this field of this type somewhere. */
  predicate Carries(t: EventType, f: Field) {
    InArm(ExtractArm(t), f)
  }

  lemma {:induction false} UnpackPack(f: Field, v: Value)
    requires SameType(v, Zero(f))
    ensures Unpack(f, Pack(f, v)) == v
  {
    if f == LockAcquired { ScanPrint(v.n); }
  }

  lemma {:induction false} RecoveredFilled(arm: seq<Copy>, fields: Field -> Value, slots: Slot -> Value, f: Field)
    requires Injective(arm) && SameType(fields(f), Zero(f))
    requires forall s :: slots(s) == Filled(arm, fields, s)
    ensures Recovered(arm, slots, f) == if InArm(arm, f) then fields(f) else Zero(f)
  {
    if InArm(arm, f) {
      var k :| 0 <= k < |arm| && arm[k].field == f;
      FilledAt(arm, fields, k);
      RecoveredAt(arm, slots, k);
      UnpackPack(f, fields(f));
    } else {
      NotRecovered(arm, slots, f);
    }
  }

  /** Compacting and restoring an event keeps its type, its timestamp and every field its type
      carries, and clears every other field. */
  lemma {:induction false} RestoreCompact(ev: EventRecord, i: nat, f: Field)
    requires Compactable(ev.kind) && Typed(ev)
    ensures var back := Restore(i, Compact(ev));
            && back.step == i && back.kind == ev.kind && back.timestampMs == ev.timestampMs
            && back.fields(f) == (if Carries(ev.kind, f) then ev.fields(f) else Zero(f))
  {
    CodesRoundTrip(ev.kind);
    ArmsAgree(ev.kind);
    ArmsInjective(ev.kind);
    RecoveredFilled(ExtractArm(ev.kind), ev.fields, Compact(ev).slots, f);
  }
}
