/**
 A run that is compacted between two of its wakes. Before the compaction a wake loads the event rows;
 after it, the checkpoint's events and the rows the compaction kept, and it writes to a table that holds
 only those. The run is related to the run that was never compacted, over every later wake.
 */
module CompactedRuns {
  import opened EventTable
  import opened ChildCalls
  import opened Journals
  import opened ReplayDeterminism
  import opened CompactionReplay
  import Codec = EventCodec
  import Compaction
  import ReplayClocks

  // ---- The table after a compaction ------------------------------------------------------------

  /** The rows that a compaction at this step keeps. */
  function Kept(rows: map<nat, Row>, keep: nat): map<nat, Row> {
    map i: nat | i in rows && keep <= i :: rows[i]
  }

  /** The kept rows in step order, as the history loader returns them. */
  ghost function LoadTail(rows: map<nat, Row>, keep: nat): seq<Row> {
    if h: seq<Row> :| keep <= |h| && Kept(Table(h), keep) == rows then h[keep..] else []
  }

  lemma {:induction false} TailInjective(a: seq<Row>, b: seq<Row>, keep: nat)
    requires keep <= |a| && keep <= |b| && Kept(Table(a), keep) == Kept(Table(b), keep)
    ensures a[keep..] == b[keep..]
  {
    assert |a| < |b| ==> |a| in Kept(Table(b), keep);
    assert |b| < |a| ==> |b| in Kept(Table(a), keep);
    forall i | keep <= i < |a| ensures a[i] == b[i] {
      assert Kept(Table(a), keep)[i] == Kept(Table(b), keep)[i];
    }
  }

  lemma {:induction false} LoadKept(h: seq<Row>, keep: nat)
    requires keep <= |h|
    ensures LoadTail(Kept(Table(h), keep), keep) == h[keep..]
  {
    var g: seq<Row> :| keep <= |g| && Kept(Table(g), keep) == Kept(Table(h), keep)
                       && LoadTail(Kept(Table(h), keep), keep) == g[keep..];
    TailInjective(g, h, keep);
  }

  /** A wake after the compaction: the restored events, then the kept rows. */
  ghost function CompactedWake(json: Json, guest: Guest, seedMs: nat, restored: seq<Row>, keep: nat, d: Durable,
                               wake: Wake): Segment {
    var h := restored + LoadTail(d.rows, keep);
    Run(json, guest, Session(h != [], 0, h, d.rows, d.children, seedMs, false), wake.worlds, wake.calls)
  }

  /** What the compaction leaves of a store. */
  function Compacted(d: Durable, keep: nat): Durable {
    Durable(Kept(d.rows, keep), d.children)
  }

  /** The records a compaction folded, as the child calls see them when they are restored. */
  function Restored(records: seq<Codec.EventRecord>, keep: nat): seq<Row>
    requires keep <= |records|
  {
    Views(Compaction.RestoreAll(Compaction.Newest(Compaction.CompactAll(records[..keep]))))
  }

  /** These are the wakes of a run whose records were compacted before the wake numbered `at`. */
  ghost predicate IsCompactedRun(json: Json, guest: Guest, seedMs: nat, wakes: seq<Wake>, segs: seq<Segment>, at: nat,
                                 records: seq<Codec.EventRecord>, keep: nat)
  {
    && |segs| == |wakes| && at <= |wakes| && keep <= |records|
    && Views(records) == Load(StoreBefore(segs, at).rows)
    && Begins(json, guest, seedMs, wakes, segs, at)
    && Continues(json, guest, seedMs, wakes, segs, at, Restored(records, keep), keep)
  }

  /** Before the wake numbered `at`, each wake is over the rows the one before it left. */
  ghost predicate Begins(json: Json, guest: Guest, seedMs: nat, wakes: seq<Wake>, segs: seq<Segment>, at: nat)
    requires |segs| == |wakes| && at <= |wakes|
  {
    forall m {:trigger wakes[m]} :: 0 <= m < at ==>
      segs[m] == WakeOn(json, guest, seedMs, StoreBefore(segs, m), wakes[m])
  }

  /** From the wake numbered `at` on, each wake is over the compacted store that the one before it left. */
  ghost predicate Continues(json: Json, guest: Guest, seedMs: nat, wakes: seq<Wake>, segs: seq<Segment>, at: nat,
                            restored: seq<Row>, keep: nat)
    requires |segs| == |wakes|
  {
    forall m {:trigger wakes[m]} :: at <= m < |wakes| ==>
      segs[m] == CompactedWake(json, guest, seedMs, restored, keep, CompactedStore(segs, at, keep, m), wakes[m])
  }

  /** What the wake numbered `m` finds in the compacted store. */
  function CompactedStore(segs: seq<Segment>, at: nat, keep: nat, m: nat): Durable
    requires at <= m <= |segs|
  {
    if m == at then Compacted(StoreBefore(segs, at), keep) else StoreBefore(segs, m)
  }

  /** A compaction that keeps a row, truncates nothing and folds no await-all that names its children. */
  ghost predicate Survives(records: seq<Codec.EventRecord>, keep: nat) {
    && keep < |records| && keep <= Compaction.MAX_COMPACTED_EVENTS && Compaction.CompactableAll(records[..keep])
    && (forall i :: 0 <= i < keep ==> !NamesChildren(records[i]))
  }

  lemma {:induction false} RestoredIsPrefix(records: seq<Codec.EventRecord>, keep: nat)
    requires Survives(records, keep)
    ensures Restored(records, keep) == Views(records)[..keep]
  {
    ViewsSurvive(records, keep);
    var restored := Compaction.RestoreAll(Compaction.Newest(Compaction.CompactAll(records[..keep])));
    assert Compaction.Rebuilt(records, keep) == restored + records[keep..];
    assert |restored| == keep;
    forall i | 0 <= i < keep ensures Views(restored)[i] == Views(records)[i] {
      assert Views(Compaction.Rebuilt(records, keep))[i] == Views(records)[i];
    }
  }

  // ---- Where a call writes ---------------------------------------------------------------------

  /** A record that a call appends is written at no step below this one. */
  predicate WritesFrom(s: Session, s': Session, keep: nat) {
    |s'.history| == |s.history| || s'.stepCount > keep
  }

  /** Two sessions alike but for the rows, of which the second has those that were kept. */
  predicate KeptTwins(s: Session, t: Session, keep: nat) {
    Twins(s, t) && t.rows == Kept(s.rows, keep)
  }

  lemma {:induction false} UpsertKept(rows: map<nat, Row>, k: nat, row: Row, keep: nat)
    requires keep <= k
    ensures Kept(Upsert(rows, k, row), keep) == Upsert(Kept(rows, keep), k, row)
  {
  }

  lemma {:induction false} RecordKept(s: Session, t: Session, row: Row, clock: nat, keep: nat)
    requires KeptTwins(s, t, keep) && keep <= s.stepCount
    ensures KeptTwins(RecordEvent(s, row, clock), RecordEvent(t, row, clock), keep)
  {
    UpsertKept(s.rows, s.stepCount, row.(createdAt := Max(clock, s.nowMs)), keep);
  }

  lemma {:induction false} FreshStartKept(s: Session, t: Session, policy: string, w: World, keep: nat)
    requires KeptTwins(s, t, keep) && WritesFrom(s, FreshStart(s, policy, w).0, keep)
    ensures KeptTwins(FreshStart(s, policy, w).0, FreshStart(t, policy, w).0, keep)
  {
    if FreshStart(s, policy, w).1.Started? {
      assert s.stepCount in t.rows <==> s.stepCount in s.rows;
    }
  }

  lemma {:induction false} StartKept(s: Session, t: Session, policy: string, w: World, keep: nat)
    requires KeptTwins(s, t, keep) && WritesFrom(s, StartCall(s, policy, w).0, keep)
    ensures KeptTwins(StartCall(s, policy, w).0, StartCall(t, policy, w).0, keep)
  {
    if !HasRecord(s) { FreshStartKept(ExitReplay(s), ExitReplay(t), policy, w, keep); }
  }

  lemma {:induction false} FreshAwaitKept(s: Session, t: Session, runID: string, w: World, keep: nat)
    requires KeptTwins(s, t, keep) && WritesFrom(s, FreshAwait(s, runID, w).0, keep)
    ensures KeptTwins(FreshAwait(s, runID, w).0, FreshAwait(t, runID, w).0, keep)
  {
    var row := Blank(AwaitChild).(runID := runID);
    match w.read(runID)
    case Unreadable(m) => RecordKept(s, t, row.(error := m), w.clock, keep);
    case Failed(m) => RecordKept(s, t, row.(error := m), w.clock, keep);
    case Done(r) => RecordKept(s, t, row.(response := r), w.clock, keep);
    case Running => RecordKept(s, t, row, w.clock, keep);
  }

  lemma {:induction false} AwaitKept(s: Session, t: Session, runID: string, w: World, keep: nat)
    requires KeptTwins(s, t, keep) && WritesFrom(s, AwaitCall(s, runID, w).0, keep)
    ensures KeptTwins(AwaitCall(s, runID, w).0, AwaitCall(t, runID, w).0, keep)
  {
    var past := FreshAwait(ExitReplay(s), runID, w);
    if AwaitCall(s, runID, w) == past && AwaitCall(t, runID, w) == FreshAwait(ExitReplay(t), runID, w) {
      FreshAwaitKept(ExitReplay(s), ExitReplay(t), runID, w, keep);
    }
  }

  lemma {:induction false} FreshAnyKept(json: Json, s: Session, t: Session, ids: string, resumed: bool, w: World,
                                        keep: nat)
    requires KeptTwins(s, t, keep) && WritesFrom(s, FreshAny(json, s, ids, resumed, w).0, keep)
    ensures KeptTwins(FreshAny(json, s, ids, resumed, w).0, FreshAny(json, t, ids, resumed, w).0, keep)
  {
    var row, a := Blank(AwaitAnyChild).(request := ids), FreshAny(json, s, ids, resumed, w).1;
    if keep <= s.stepCount {
      RecordKept(s, t, row, w.clock, keep);
      if a.Returned? { RecordKept(s, t, row.(response := a.text), w.clock, keep); }
    }
  }

  lemma {:induction false} ConsumeKept(json: Json, s: Session, t: Session, request: string, keep: nat)
    requires KeptTwins(s, t, keep)
    ensures ConsumeAny(json, s, request).1 == ConsumeAny(json, t, request).1
    ensures KeptTwins(ConsumeAny(json, s, request).0, ConsumeAny(json, t, request).0, keep)
    ensures ConsumeAny(json, s, request).0.history == s.history
    decreases |s.history| - s.stepCount
  {
    if s.stepCount < |s.history| {
      var rec := s.history[s.stepCount];
      ConsumeKept(json, Advance(s, rec), Advance(t, rec), request, keep);
    }
  }

  lemma {:induction false} AnyKept(json: Json, s: Session, t: Session, ids: string, w: World, keep: nat)
    requires KeptTwins(s, t, keep) && WritesFrom(s, AnyCall(json, s, ids, w).0, keep)
    ensures KeptTwins(AnyCall(json, s, ids, w).0, AnyCall(json, t, ids, w).0, keep)
  {
    if s.suspended {
    } else if HasRecord(s) {
      var rec := s.history[s.stepCount];
      ConsumeKept(json, Advance(s, rec), Advance(t, rec), rec.request, keep);
      var (s', text) := ConsumeAny(json, Advance(s, rec), rec.request);
      var (t', _) := ConsumeAny(json, Advance(t, rec), rec.request);
      if rec.kind == AwaitAnyChild && rec.response == "" && text == "" {
        FreshAnyKept(json, ExitReplay(s'), ExitReplay(t'), ids, true, w, keep);
      }
    } else {
      FreshAnyKept(json, ExitReplay(s), ExitReplay(t), ids, false, w, keep);
    }
  }

  lemma {:induction false} FreshAllKept(json: Json, s: Session, t: Session, ids: string, w: World, keep: nat)
    requires KeptTwins(s, t, keep) && WritesFrom(s, FreshAll(json, s, ids, w).0, keep)
    ensures KeptTwins(FreshAll(json, s, ids, w).0, FreshAll(json, t, ids, w).0, keep)
  {
    if json.ids(ids).Ids? {
      var row := Blank(AwaitAllChildren).(request := ids);
      RecordKept(s, t, row, w.clock, keep);
      RecordKept(s, t, row.(response := json.many(Outcomes(json.ids(ids).ids, w.read))), w.clock, keep);
    }
  }

  lemma {:induction false} AllKept(json: Json, s: Session, t: Session, ids: string, w: World, keep: nat)
    requires KeptTwins(s, t, keep) && WritesFrom(s, AllCall(json, s, ids, w).0, keep)
    ensures KeptTwins(AllCall(json, s, ids, w).0, AllCall(json, t, ids, w).0, keep)
  {
    var past := FreshAll(json, ExitReplay(s), ids, w);
    if AllCall(json, s, ids, w) == past && AllCall(json, t, ids, w) == FreshAll(json, ExitReplay(t), ids, w) {
      FreshAllKept(json, ExitReplay(s), ExitReplay(t), ids, w, keep);
    }
  }

  lemma {:induction false} CallKept(json: Json, s: Session, t: Session, req: Request, w: World, keep: nat)
    requires KeptTwins(s, t, keep) && WritesFrom(s, Call(json, s, req, w).0, keep)
    ensures KeptTwins(Call(json, s, req, w).0, Call(json, t, req, w).0, keep)
  {
    match req
    case StartChild(_, _, policy) => StartKept(s, t, policy, w, keep);
    case Await(runID) => AwaitKept(s, t, runID, w, keep);
    case AwaitAny(ids) => AnyKept(json, s, t, ids, w, keep);
    case AwaitAll(ids) => AllKept(json, s, t, ids, w, keep);
    case Poll(_) =>
  }

  // ---- A wake writes at the end of its journal -----------------------------------------------------

  /** A call the journal has an answer for appends nothing, if it is answered the same or suspended. */
  lemma {:induction false} KnownCallWrites(json: Json, guest: Guest, j: Journal, k: nat, s: Session, w: World, keep: nat)
    requires Valid(json, guest, j) && k < |j.parts| && StandsAt(j, k, s) && guest(j.answers[..k]).Ask?
    requires var a := Call(json, s, guest(j.answers[..k]).request, w).1; a == j.answers[k] || a.Suspended?
    ensures WritesFrom(s, Call(json, s, guest(j.answers[..k]).request, w).0, keep)
  {
    KnownCall(json, guest, j, k, s, w);
    var req := guest(j.answers[..k]).request;
    if Call(json, s, req, w).1.Suspended? {
      ExplainedAt(json, guest, j.answers, j.parts, k);
      SuspendedRefusalAppendsNothing(json, req, s, w);
    }
  }

  lemma {:induction false} SuspendedRefusalAppendsNothing(json: Json, req: Request, s: Session, w: World)
    requires Refusable(json, req) && !s.suspended && Call(json, s, req, w).1.Suspended?
    ensures Call(json, s, req, w).0.history == s.history
  {
  }

  /** A call past the journal's answers writes at the row it left open, or after the last row. */
  lemma {:induction false} PendingCallWrites(json: Json, guest: Guest, j: Journal, s: Session, w: World, keep: nat)
    requires Valid(json, guest, j) && StandsAt(j, |j.parts|, s) && guest(j.answers).Ask? && keep < |Rows(j)|
    ensures WritesFrom(s, Call(json, s, guest(j.answers).request, w).0, keep)
  {
    assert j.parts[..|j.parts|] == j.parts;
    var req := guest(j.answers).request;
    if req.AwaitAny? && HasRecord(s) {
      AnyAtEnd(json, j, s, req.ids, w, keep);
    }
  }

  lemma {:induction false} AnyAtEnd(json: Json, j: Journal, s: Session, ids: string, w: World, keep: nat)
    requires Journals.Reading(j, |j.parts|, s) && OpenFor(json, Ask(AwaitAny(ids)), j.open) && keep < |Rows(j)|
    requires j.parts[..|j.parts|] == j.parts && HasRecord(s)
    ensures WritesFrom(s, AnyCall(json, s, ids, w).0, keep)
  {
    var rec := s.history[s.stepCount];
    assert j.open != [];
    forall i | s.stepCount <= i < |s.history| ensures s.history[i] == j.open[i - s.stepCount] {}
    ConsumeToEnd(json, Advance(s, rec), rec.request);
  }

  /** One call of a wake that does not contradict its journal. */
  lemma {:induction false} CallWritesLate(json: Json, guest: Guest, j: Journal, seg: Segment, w: World, keep: nat)
    requires Valid(json, guest, j) && InProgress(j, seg) && seg.ending.Lost? && guest(seg.answers).Ask?
    requires Comparable(Continue(json, guest, seg, w).answers, j.answers) && keep < |Rows(j)|
    ensures WritesFrom(seg.session, Call(json, seg.session, guest(seg.answers).request, w).0, keep)
  {
    var k := |seg.answers|;
    if k < |j.answers| {
      var a := Call(json, seg.session, guest(seg.answers).request, w).1;
      assert a.Suspended? || a == j.answers[k] by {
        if !a.Suspended? { assert Continue(json, guest, seg, w).answers[k] == a; }
      }
      KnownCallWrites(json, guest, j, k, seg.session, w, keep);
    } else {
      assert seg.answers == j.answers;
      PendingCallWrites(json, guest, j, seg.session, w, keep);
    }
  }

  /** Two wakes alike, the second over the kept rows. */
  predicate KeptSegments(a: Segment, b: Segment, keep: nat) {
    SameSegment(a, b) && KeptTwins(a.session, b.session, keep)
  }

  lemma {:induction false} CallAlike(json: Json, guest: Guest, j: Journal, seg: Segment, twin: Segment, w: World, keep: nat)
    requires Valid(json, guest, j) && (seg.ending.Lost? ==> InProgress(j, seg))
    requires Comparable(Continue(json, guest, seg, w).answers, j.answers) && keep < |Rows(j)|
    requires KeptSegments(seg, twin, keep)
    ensures KeptSegments(Continue(json, guest, seg, w), Continue(json, guest, twin, w), keep)
    ensures TableAdvances(seg.session.rows, Continue(json, guest, seg, w).session.rows)
  {
    ContinueIgnoresRows(json, guest, seg, twin, w);
    if seg.ending.Lost? && guest(seg.answers).Ask? {
      var req := guest(seg.answers).request;
      CallWritesLate(json, guest, j, seg, w, keep);
      CallKept(json, seg.session, twin.session, req, w, keep);
      ReplayClocks.CallWritesOnce(json, seg.session, req, w);
      ReplayClocks.WritesAdvance(seg.session, Call(json, seg.session, req, w).0, w.clock);
    }
  }

  lemma {:induction false} LongerTable(a: seq<Row>, b: seq<Row>)
    requires TableAdvances(Table(a), Table(b))
    ensures |a| <= |b|
  {
    if a != [] { assert |a| - 1 in Table(a); }
  }

  lemma {:induction false} AdvancesOn(a: map<nat, Row>, b: map<nat, Row>, c: map<nat, Row>)
    requires TableAdvances(a, b) && TableAdvances(b, c)
    ensures TableAdvances(a, c)
  {
  }

  lemma {:induction false} OneMoreAlike(json: Json, guest: Guest, j: Journal, before: Segment, before': Segment,
                                        j1: Journal, w: World, keep: nat)
    returns (seg: Segment, twin: Segment)
    requires Tracks(json, guest, j, before, j1) && KeptSegments(before, before', keep) && keep < |Rows(j)|
    requires TableAdvances(Table(Rows(j)), before.session.rows)
    requires Comparable(Continue(json, guest, before, w).answers, j.answers)
    ensures seg == Continue(json, guest, before, w) && twin == Continue(json, guest, before', w)
    ensures KeptSegments(seg, twin, keep) && TableAdvances(Table(Rows(j)), seg.session.rows)
  {
    seg, twin := Continue(json, guest, before, w), Continue(json, guest, before', w);
    LongerTable(Rows(j), Rows(j1));
    StillComparable(json, guest, j, before, j1, w);
    CallAlike(json, guest, j1, before, before', w, keep);
    AdvancesOn(Table(Rows(j)), before.session.rows, seg.session.rows);
  }

  /** A wake over the kept rows is the wake over all of them, and leaves the kept rows of its table. */
  lemma {:induction false} WakesAlike(json: Json, guest: Guest, j: Journal, s: Session, t: Session,
                                      worlds: nat -> World, calls: nat, keep: nat)
    returns (seg: Segment, twin: Segment, j': Journal)
    requires Renders(json) && SoundWorlds(worlds) && KeptTwins(s, t, keep) && keep < |Rows(j)|
    requires Valid(json, guest, j) && s == Begin(Rows(j), StartedBy(Rows(j)), s.nowMs)
    requires Comparable(Run(json, guest, s, worlds, calls).answers, j.answers)
    ensures seg == Run(json, guest, s, worlds, calls) && twin == Run(json, guest, t, worlds, calls)
    ensures Tracks(json, guest, j, seg, j') && KeptSegments(seg, twin, keep)
    ensures TableAdvances(Table(Rows(j)), seg.session.rows)
  {
    if calls == 0 {
      seg, twin, j' := Pause(guest, s, []), Pause(guest, t, []), j;
      WakeBegins(json, guest, j, s);
    } else {
      RunGrows(json, guest, s, worlds, calls - 1, calls);
      var before, before', j1 := WakesAlike(json, guest, j, s, t, worlds, calls - 1, keep);
      var w := worlds(calls - 1);
      seg, twin := OneMoreAlike(json, guest, j, before, before', j1, w, keep);
      j' := WakeGoesOn(json, guest, j, before, j1, w, seg);
    }
  }

  // ---- Every wake of a compacted run ---------------------------------------------------------------

  /** The wakes of the two runs so far are alike, and what the next one will find is alike too. */
  ghost predicate Follows(plain: seq<Segment>, segs: seq<Segment>, at: nat, keep: nat, m: nat)
    requires |plain| == |segs| && at <= |segs| && m <= |segs|
  {
    && (forall i :: 0 <= i < m && i < at ==> segs[i] == plain[i])
    && (forall i :: at <= i < m ==> KeptSegments(plain[i], segs[i], keep))
  }

  lemma {:induction false} FollowingStore(plain: seq<Segment>, segs: seq<Segment>, at: nat, keep: nat, m: nat)
    requires |plain| == |segs| && at <= m <= |segs| && Follows(plain, segs, at, keep, m)
    ensures CompactedStore(segs, at, keep, m) == Compacted(StoreBefore(plain, m), keep)
    ensures m == at ==> StoreBefore(segs, at) == StoreBefore(plain, at)
  {
  }

  lemma {:induction false} CompactedWakeFollows(json: Json, guest: Guest, seedMs: nat, j: Journal, d: Durable,
                                                restored: seq<Row>, keep: nat, wake: Wake, seg: Segment, twin: Segment)
    requires Renders(json) && SoundWorlds(wake.worlds) && Holds(json, guest, d, j)
    requires keep < |Rows(j)| && restored == Rows(j)[..keep]
    requires seg == WakeOn(json, guest, seedMs, d, wake)
    requires twin == CompactedWake(json, guest, seedMs, restored, keep, Compacted(d, keep), wake)
    ensures SameSegment(seg, twin)
    ensures Comparable(seg.answers, j.answers) ==>
              KeptSegments(seg, twin, keep) && TableAdvances(d.rows, seg.session.rows)
  {
    LoadTable(Rows(j));
    LoadKept(Rows(j), keep);
    assert restored + Rows(j)[keep..] == Rows(j);
    var s := Begin(Rows(j), d.children, seedMs);
    var t := s.(rows := Kept(d.rows, keep));
    RunIgnoresRows(json, guest, s, t, wake.worlds, wake.calls);
    if Comparable(seg.answers, j.answers) {
      var a, b, j' := WakesAlike(json, guest, j, s, t, wake.worlds, wake.calls, keep);
    }
  }

  /** The rows below the last one are final. */
  lemma {:induction false} PrefixStays(json: Json, guest: Guest, j: Journal, j': Journal, keep: nat)
    requires Valid(json, guest, j) && j.parts <= j'.parts && keep < |Rows(j)|
    requires TableAdvances(Table(Rows(j)), Table(Rows(j')))
    ensures keep < |Rows(j')| && Rows(j')[..keep] == Rows(j)[..keep]
  {
    LongerTable(Rows(j), Rows(j'));
    FlattenIsPrefix(j'.parts, |j.parts|);
    assert j'.parts[..|j.parts|] == j.parts;
    forall i | 0 <= i < keep ensures Rows(j')[i] == Rows(j)[i] {
      if i >= |Flatten(j.parts)| {
        assert Rows(j)[i] == j.open[i - |Flatten(j.parts)|];
        assert !Open(Table(Rows(j))[i]);
      }
    }
  }

  /** Up to the compaction the two runs are one. */
  lemma {:induction false} SameUntil(json: Json, guest: Guest, seedMs: nat, wakes: seq<Wake>, plain: seq<Segment>,
                                     segs: seq<Segment>, at: nat, m: nat)
    requires |plain| == |segs| == |wakes| && m < at <= |wakes|
    requires Begins(json, guest, seedMs, wakes, plain, at) && Begins(json, guest, seedMs, wakes, segs, at)
    ensures plain[m] == segs[m]
  {
    if m > 0 { SameUntil(json, guest, seedMs, wakes, plain, segs, at, m - 1); }
    assert StoreBefore(segs, m) == StoreBefore(plain, m);
    var wake := wakes[m];
  }

  lemma {:induction false} FollowersAgree(json: Json, guest: Guest, seedMs: nat, wakes: seq<Wake>, plain: seq<Segment>,
                                          segs: seq<Segment>, at: nat, keep: nat, m: nat)
    requires Renders(json) && SoundWakes(wakes) && IsRun(json, guest, seedMs, wakes, plain)
    requires |segs| == |plain| && m < |segs| && at <= |segs| && Steady(segs) && AllAgree(plain, m)
    requires Follows(plain, segs, at, keep, m) && plain[m].answers == segs[m].answers
    ensures AllAgree(plain, m + 1)
  {
    forall i | 0 <= i < m ensures Repeats(plain[i].answers, plain[m].answers) {
      assert plain[i].answers == segs[i].answers;
      assert Repeats(segs[i].answers, segs[m].answers);
    }
    OneMoreAgrees(json, guest, seedMs, wakes, plain, m);
  }

  lemma {:induction false} AgreeUntil(json: Json, guest: Guest, seedMs: nat, wakes: seq<Wake>, plain: seq<Segment>,
                                      segs: seq<Segment>, at: nat, keep: nat, m: nat)
    requires Renders(json) && SoundWakes(wakes) && IsRun(json, guest, seedMs, wakes, plain)
    requires |segs| == |plain| && m <= at <= |segs| && Steady(segs) && Follows(plain, segs, at, keep, at)
    ensures AllAgree(plain, m)
  {
    if m > 0 {
      AgreeUntil(json, guest, seedMs, wakes, plain, segs, at, keep, m - 1);
      FollowersAgree(json, guest, seedMs, wakes, plain, segs, at, keep, m - 1);
    }
  }

  lemma {:induction false} GatheredIsComparable(json: Json, guest: Guest, plain: seq<Segment>, m: nat, j: Journal)
    requires m < |plain| && Gathers(json, guest, plain, m, j) && AllAgree(plain, m + 1)
    ensures Comparable(plain[m].answers, j.answers)
  {
    if j.answers != [] {
      var i :| 0 <= i < m && plain[i].answers == j.answers;
    }
  }

  /** What is known of the run without the compaction, and of the other, after `m` wakes of both. */
  ghost predicate Alongside(json: Json, guest: Guest, plain: seq<Segment>, segs: seq<Segment>, at: nat,
                            restored: seq<Row>, keep: nat, m: nat, j: Journal)
  {
    && |plain| == |segs| && at <= m <= |segs| && Follows(plain, segs, at, keep, m)
    && AllAgree(plain, m) && Gathers(json, guest, plain, m, j)
    && keep < |Rows(j)| && restored == Rows(j)[..keep]
  }

  /** One wake after the compaction. */
  lemma {:induction false} OneMoreFollows(json: Json, guest: Guest, seedMs: nat, wakes: seq<Wake>, plain: seq<Segment>,
                                          segs: seq<Segment>, at: nat, restored: seq<Row>, keep: nat, m: nat, j: Journal,
                                          next: nat)
    returns (j': Journal)
    requires Renders(json) && SoundWakes(wakes) && IsRun(json, guest, seedMs, wakes, plain) && Steady(segs)
    requires m < |segs| && next == m + 1 && Alongside(json, guest, plain, segs, at, restored, keep, m, j)
    requires |segs| == |wakes| && Continues(json, guest, seedMs, wakes, segs, at, restored, keep)
    ensures Alongside(json, guest, plain, segs, at, restored, keep, next, j')
  {
    FollowingStore(plain, segs, at, keep, m);
    CompactedWakeFollows(json, guest, seedMs, j, StoreBefore(plain, m), restored, keep, wakes[m], plain[m], segs[m]);
    FollowersAgree(json, guest, seedMs, wakes, plain, segs, at, keep, m);
    GatheredIsComparable(json, guest, plain, m, j);
    j' := WakeGathers(json, guest, seedMs, wakes, plain, m, j);
    PrefixStays(json, guest, j, j', keep);
  }

  lemma {:induction false} FirstFollows(json: Json, guest: Guest, seedMs: nat, wakes: seq<Wake>, plain: seq<Segment>,
                                        segs: seq<Segment>, at: nat, records: seq<Codec.EventRecord>, keep: nat)
    returns (j: Journal)
    requires Renders(json) && SoundWakes(wakes) && IsRun(json, guest, seedMs, wakes, plain) && Steady(segs)
    requires IsCompactedRun(json, guest, seedMs, wakes, segs, at, records, keep) && Survives(records, keep)
    ensures Alongside(json, guest, plain, segs, at, Restored(records, keep), keep, at, j)
  {
    forall i | 0 <= i < at ensures segs[i] == plain[i] { SameUntil(json, guest, seedMs, wakes, plain, segs, at, i); }
    AgreeUntil(json, guest, seedMs, wakes, plain, segs, at, keep, at);
    j := JournalAfter(json, guest, seedMs, wakes, plain, at);
    FollowingStore(plain, segs, at, keep, at);
    LoadTable(Rows(j));
    RestoredIsPrefix(records, keep);
  }

  lemma {:induction false} AllFollow(json: Json, guest: Guest, seedMs: nat, wakes: seq<Wake>, plain: seq<Segment>,
                                     segs: seq<Segment>, at: nat, restored: seq<Row>, keep: nat, first: Journal)
    requires Renders(json) && SoundWakes(wakes) && IsRun(json, guest, seedMs, wakes, plain) && Steady(segs)
    requires |segs| == |wakes| && Continues(json, guest, seedMs, wakes, segs, at, restored, keep)
    requires Alongside(json, guest, plain, segs, at, restored, keep, at, first)
    ensures Follows(plain, segs, at, keep, |segs|) && AllAgree(plain, |segs|)
  {
    var j, m := first, at;
    while m < |segs|
      invariant m <= |segs| && Alongside(json, guest, plain, segs, at, restored, keep, m, j)
    {
      var next := m + 1;
      j := OneMoreFollows(json, guest, seedMs, wakes, plain, segs, at, restored, keep, m, j, next);
      m := next;
    }
  }

  /** Compaction is invisible: over every run in which polls and refusals repeat, with a compaction between
      any two wakes, there is the same run without the compaction, and every wake of the one answers, ends
      and starts children as the same wake of the other; the table it leaves is the kept part. */
  lemma {:induction false} CompactionIsInvisible(json: Json, guest: Guest, seedMs: nat, wakes: seq<Wake>,
                                                 segs: seq<Segment>, at: nat, records: seq<Codec.EventRecord>, keep: nat)
    returns (plain: seq<Segment>)
    requires Renders(json) && SoundWakes(wakes) && Steady(segs)
    requires IsCompactedRun(json, guest, seedMs, wakes, segs, at, records, keep) && Survives(records, keep)
    ensures IsRun(json, guest, seedMs, wakes, plain) && |plain| == |segs| && Steady(plain)
    ensures forall m :: 0 <= m < |segs| ==> SameSegment(plain[m], segs[m])
    ensures forall m :: at <= m < |segs| ==> segs[m].session.rows == Kept(plain[m].session.rows, keep)
  {
    plain := RunExists(json, guest, seedMs, wakes);
    var first := FirstFollows(json, guest, seedMs, wakes, plain, segs, at, records, keep);
    AllFollow(json, guest, seedMs, wakes, plain, segs, at, Restored(records, keep), keep, first);
    WakesAgreeExactly(json, guest, seedMs, wakes, plain);
  }

  /** Replay determinism across a compaction: all wakes, before and after it, agree if and only if polls
      and refusals repeat, and then no call diverges and each start created exactly one child. */
  lemma {:induction false} WakesAgreeAcrossCompaction(json: Json, guest: Guest, seedMs: nat, wakes: seq<Wake>,
                                                      segs: seq<Segment>, at: nat, records: seq<Codec.EventRecord>,
                                                      keep: nat)
    requires Renders(json) && SoundWakes(wakes)
    requires IsCompactedRun(json, guest, seedMs, wakes, segs, at, records, keep) && Survives(records, keep)
    ensures AllAgree(segs, |segs|) <==> Steady(segs)
    ensures Steady(segs) ==> forall i, k :: 0 <= i < k < |segs| ==> Agree(segs[i], segs[k])
    ensures Steady(segs) ==> forall k :: 0 <= k < |segs| ==>
              && Ordinary(segs[k].answers) && StartsIn(segs[k].answers) <= segs[k].session.children
              && (segs[k].ending.Finished? ==> segs[k].session.children == StartsIn(segs[k].answers))
  {
    if Steady(segs) {
      var plain := CompactionIsInvisible(json, guest, seedMs, wakes, segs, at, records, keep);
      forall i, k | 0 <= i < k < |segs| ensures Agree(segs[i], segs[k]) {
        ReplayIsDeterministic(json, guest, seedMs, wakes, plain, i, k);
        assert SameSegment(plain[i], segs[i]) && SameSegment(plain[k], segs[k]);
      }
      forall k | 0 <= k < |segs|
        ensures Ordinary(segs[k].answers) && StartsIn(segs[k].answers) <= segs[k].session.children
        ensures segs[k].ending.Finished? ==> segs[k].session.children == StartsIn(segs[k].answers)
      {
        ReplayIsDeterministic(json, guest, seedMs, wakes, plain, k, k);
        assert SameSegment(plain[k], segs[k]);
      }
    } else if AllAgree(segs, |segs|) {
      forall i, m | 0 <= i < m < |segs| ensures Repeats(segs[i].answers, segs[m].answers) {
        ComparableRepeats(segs[i].answers, segs[m].answers);
      }
    }
  }
}
