/**
 Re-execution from the top. Every wake runs the guest again from its first call, over the durable
 rows that earlier wakes left, with any observation of its children and cut off after any number of
 calls; the theorems relate what different wakes of one run answer. The guest is any function of the
 answers it has had: it may poll, and go on after a refused call.
 */
module ReplayDeterminism {
  import opened EventTable
  import opened ChildCalls
  import opened Journals

  /** One wake: what each of its calls observes, and how many calls it completes before it is lost. */
  datatype Wake = Wake(worlds: nat -> World, calls: nat)

  datatype Ending = Finished | Slept | Lost

  datatype Segment = Segment(session: Session, answers: seq<Answer>, ending: Ending)

  /** A guest that has had these answers and not been cut off has finished, or has more to ask. */
  function Pause(guest: Guest, s: Session, answers: seq<Answer>): Segment {
    Segment(s, answers, if guest(answers).Finish? then Finished else Lost)
  }

  /** One more call of a wake, if the guest has one to make. */
  function Continue(json: Json, guest: Guest, seg: Segment, w: World): Segment {
    if !seg.ending.Lost? || guest(seg.answers).Finish? then seg
    else
      var (s', a) := Call(json, seg.session, guest(seg.answers).request, w);
      if a.Suspended? then Segment(s', seg.answers, Slept) else Pause(guest, s', seg.answers + [a])
  }

  /** A wake from session `s`, cut off after at most `calls` calls. */
  function Run(json: Json, guest: Guest, s: Session, worlds: nat -> World, calls: nat): Segment {
    if calls == 0 then Pause(guest, s, [])
    else Continue(json, guest, Run(json, guest, s, worlds, calls - 1), worlds(calls - 1))
  }

  /** A session starts at the workflow's creation time, which is the same on every wake. */
  function Begin(history: seq<Row>, children: seq<string>, seedMs: nat): Session {
    Session(history != [], 0, history, Table(history), children, seedMs, false)
  }

  ghost predicate SoundWorlds(worlds: nat -> World) {
    forall i :: Sound(worlds(i))
  }

  /** What a wake had answered when it made its call numbered `n`, and how that call was answered. */
  lemma {:induction false} RunPrefix(json: Json, guest: Guest, s: Session, worlds: nat -> World, n: nat, calls: nat)
    returns (seg: Segment)
    requires n < |Run(json, guest, s, worlds, calls).answers|
    ensures n < calls && seg == Run(json, guest, s, worlds, n)
    ensures seg.ending.Lost? && guest(seg.answers).Ask?
    ensures seg.answers == Run(json, guest, s, worlds, calls).answers[..n]
    ensures Run(json, guest, s, worlds, calls).answers[n]
         == Call(json, seg.session, guest(seg.answers).request, worlds(n)).1
  {
    seg := Run(json, guest, s, worlds, n);
    RunLength(json, guest, s, worlds, calls);
    RunLength(json, guest, s, worlds, n);
    RunGrows(json, guest, s, worlds, n, calls);
    RunGrows(json, guest, s, worlds, n + 1, calls);
    NthAnswer(json, guest, seg, Run(json, guest, s, worlds, n + 1), Run(json, guest, s, worlds, calls), worlds(n));
  }

  lemma {:induction false} NthAnswer(json: Json, guest: Guest, seg: Segment, next: Segment, last: Segment, w: World)
    requires seg.answers <= last.answers && next.answers <= last.answers && |seg.answers| < |last.answers|
    requires seg.ending.Lost? && guest(seg.answers).Ask?
    requires next == Continue(json, guest, seg, w) && (!next.ending.Lost? ==> last == next)
    ensures last.answers[|seg.answers|] == Call(json, seg.session, guest(seg.answers).request, w).1
  {
  }

  lemma {:induction false} RunLength(json: Json, guest: Guest, s: Session, worlds: nat -> World, calls: nat)
    ensures var seg := Run(json, guest, s, worlds, calls);
            && |seg.answers| <= calls && (seg.ending.Lost? ==> |seg.answers| == calls && guest(seg.answers).Ask?)
  {
    if calls > 0 { RunLength(json, guest, s, worlds, calls - 1); }
  }

  lemma {:induction false} RunGrows(json: Json, guest: Guest, s: Session, worlds: nat -> World, n: nat, calls: nat)
    requires n <= calls
    ensures Run(json, guest, s, worlds, n).answers <= Run(json, guest, s, worlds, calls).answers
    ensures !Run(json, guest, s, worlds, n).ending.Lost? ==>
              Run(json, guest, s, worlds, calls) == Run(json, guest, s, worlds, n)
  {
    if n < calls { RunGrows(json, guest, s, worlds, n, calls - 1); }
  }

  // ---- One wake ------------------------------------------------------------------------------

  predicate Comparable(a: seq<Answer>, b: seq<Answer>) {
    a <= b || b <= a
  }

  /** How far a wake that is over came: through all answers, unless it was lost, or was suspended at a
      start that an earlier wake was refused. */
  predicate Through(seg: Segment, answers: seq<Answer>) {
    || seg.ending.Lost?
    || seg.answers == answers
    || (seg.ending.Slept? && |seg.answers| < |answers| && answers[|seg.answers|].Refused?)
  }

  /** The journal after a wake: it only grows, it is what the durable rows now say, the children
      started are exactly those of its child_workflow rows, and the wake answered a prefix of it. */
  ghost predicate Grew(json: Json, guest: Guest, j: Journal, seg: Segment, j': Journal) {
    && Valid(json, guest, j')
    && j.answers <= j'.answers && j.parts <= j'.parts
    && seg.session.rows == Table(Rows(j'))
    && seg.session.children == StartedBy(Rows(j'))
    && (Tight(j) && Unrefused(j') ==> Tight(j'))
    && seg.answers <= j'.answers && Through(seg, j'.answers)
    && (j'.answers == j.answers || seg.answers == j'.answers)
    && (seg.ending.Lost? && j'.answers == j.answers ==> j' == j)
  }

  /** A wake that is not over stands somewhere in the journal. */
  predicate InProgress(j: Journal, seg: Segment) {
    && |seg.answers| <= |j.parts| == |j.answers|
    && seg.answers == j.answers[..|seg.answers|] && StandsAt(j, |seg.answers|, seg.session)
  }

  ghost predicate Tracks(json: Json, guest: Guest, j: Journal, seg: Segment, j': Journal) {
    && Grew(json, guest, j, seg, j')
    && (seg.ending.Lost? ==> InProgress(j', seg))
    && (seg.ending.Lost? && j' == j ==> seg.session.history == Rows(j))
  }

  /** A call with an answer in the journal: whatever it is answered now, nothing durable changes; and if
      it is answered the same, the session stands at the next call. */
  lemma {:induction false} KnownCall(json: Json, guest: Guest, j: Journal, k: nat, s: Session, w: World)
    requires Valid(json, guest, j) && k < |j.parts| && StandsAt(j, k, s) && guest(j.answers[..k]).Ask?
    ensures var (s', a) := Call(json, s, guest(j.answers[..k]).request, w);
            && (a == j.answers[k] ==>
                  StandsAt(j, k + 1, s') && s'.children == s.children && s'.history == s.history)
            && (a.Suspended? ==> j.answers[k].Refused? && s'.rows == s.rows && s'.children == s.children)
            && (a != j.answers[k] ==> Unrecorded(j.answers[k]))
  {
    ExplainedAt(json, guest, j.answers, j.parts, k);
    RefusedNow(j, k);
    FlattenPrefix(j.parts, k);
    if !Unrecorded(j.answers[k]) {
      RecordedRepeats(json, guest, j, k, s, w);
    } else if j.answers[k].Refused? {
      RefusalRepeats(json, guest, j, k, s, w);
      var req := guest(j.answers[..k]).request;
      if Call(json, s, req, w).1.Suspended? { SuspendedRefusal(json, req, s, w); }
    }
  }

  lemma {:induction false} SuspendedRefusal(json: Json, req: Request, s: Session, w: World)
    requires Refusable(json, req) && !s.suspended && Call(json, s, req, w).1.Suspended?
    ensures var s' := Call(json, s, req, w).0; s'.rows == s.rows && s'.children == s.children
  {
  }

  lemma {:induction false} KnownCallTracks(json: Json, guest: Guest, j: Journal, seg: Segment, j': Journal, w: World)
    requires Tracks(json, guest, j, seg, j') && seg.ending.Lost? && |seg.answers| < |j'.answers|
    requires Comparable(Continue(json, guest, seg, w).answers, j'.answers)
    ensures Tracks(json, guest, j, Continue(json, guest, seg, w), j')
  {
    var k := |seg.answers|;
    ExplainedAt(json, guest, j'.answers, j'.parts, k);
    KnownCall(json, guest, j', k, seg.session, w);
    assert j'.answers[..k] + [j'.answers[k]] == j'.answers[..k + 1];
    if k + 1 < |j'.answers| { ExplainedAt(json, guest, j'.answers, j'.parts, k + 1); }
    var seg' := Continue(json, guest, seg, w);
    if !seg'.ending.Slept? {
      assert |seg'.answers| == k + 1 && seg'.answers[k] == j'.answers[k];
      assert seg'.answers == j'.answers[..k + 1];
    }
  }

  lemma {:induction false} PendingCallTracks(json: Json, guest: Guest, j: Journal, seg: Segment, j1: Journal, w: World)
    returns (j': Journal)
    requires Renders(json) && Sound(w)
    requires Tracks(json, guest, j, seg, j1) && seg.ending.Lost? && seg.answers == j1.answers
    requires guest(seg.answers).Ask?
    ensures j1.parts <= j'.parts
    ensures Tracks(json, guest, j, Continue(json, guest, seg, w), j')
  {
    j' := PendingCall(json, guest, j1, seg.session, w);
    PendingGrew(json, guest, j, seg, j1, w, j');
  }

  lemma {:induction false} PendingGrew(json: Json, guest: Guest, j: Journal, seg: Segment, j1: Journal, w: World,
                                       j': Journal)
    requires Tracks(json, guest, j, seg, j1) && seg.ending.Lost? && seg.answers == j1.answers
    requires guest(seg.answers).Ask?
    requires var (s', a) := Call(json, seg.session, guest(j1.answers).request, w);
             Extends(json, guest, j1, seg.session, s', a, j') && s'.children == StartedBy(Rows(j'))
    ensures Tracks(json, guest, j, Continue(json, guest, seg, w), j')
  {
    var (s', a) := Call(json, seg.session, guest(j1.answers).request, w);
    if a.Suspended? {
      SleptTracks(json, guest, j, seg, j1, s', j');
    } else {
      AnsweredTracks(json, guest, j, seg, j1, s', a, j');
    }
  }

  lemma {:induction false} SleptTracks(json: Json, guest: Guest, j: Journal, seg: Segment, j1: Journal, s': Session,
                                       j': Journal)
    requires Tracks(json, guest, j, seg, j1) && seg.ending.Lost? && seg.answers == j1.answers
    requires Extends(json, guest, j1, seg.session, s', Suspended, j') && s'.children == StartedBy(Rows(j'))
    ensures Tracks(json, guest, j, Segment(s', seg.answers, Slept), j')
  {
  }

  lemma {:induction false} AnsweredTracks(json: Json, guest: Guest, j: Journal, seg: Segment, j1: Journal, s': Session,
                                          a: Answer, j': Journal)
    requires Tracks(json, guest, j, seg, j1) && seg.ending.Lost? && seg.answers == j1.answers && !a.Suspended?
    requires Extends(json, guest, j1, seg.session, s', a, j') && s'.children == StartedBy(Rows(j'))
    ensures Tracks(json, guest, j, Pause(guest, s', seg.answers + [a]), j')
  {
    assert j1.answers <= j'.answers && j1.parts <= j'.parts;
    assert j'.answers[..|j'.answers|] == j'.answers;
    assert Unrefused(j') ==> Unrefused(j1);
  }

  lemma {:induction false} CallTracks(json: Json, guest: Guest, j: Journal, seg: Segment, j1: Journal, w: World)
    returns (j': Journal)
    requires Renders(json) && Sound(w) && Tracks(json, guest, j, seg, j1)
    requires Comparable(Continue(json, guest, seg, w).answers, j1.answers)
    ensures j1.parts <= j'.parts
    ensures Tracks(json, guest, j, Continue(json, guest, seg, w), j')
  {
    j' := j1;
    if seg.ending.Lost? && guest(seg.answers).Ask? {
      if |seg.answers| < |j1.answers| {
        KnownCallTracks(json, guest, j, seg, j1, w);
      } else {
        j' := PendingCallTracks(json, guest, j, seg, j1, w);
      }
    }
  }

  lemma {:induction false} NoRowsNoRecords(j: Journal)
    requires Rows(j) == []
    ensures j.open == [] && forall k :: 0 <= k <= |j.parts| ==> Flatten(j.parts[..k]) == []
  {
    forall k | 0 <= k <= |j.parts| ensures Flatten(j.parts[..k]) == [] { FlattenIsPrefix(j.parts, k); }
  }

  lemma {:induction false} WakeBegins(json: Json, guest: Guest, j: Journal, s: Session)
    requires Valid(json, guest, j) && s == Begin(Rows(j), StartedBy(Rows(j)), s.nowMs)
    ensures Tracks(json, guest, j, Pause(guest, s, []), j)
  {
    if Rows(j) == [] { NoRowsNoRecords(j); }
    assert j.parts[..0] == [] && j.answers[..0] == [] && j.parts[..|j.parts|] == j.parts;
    if j.parts != [] { ExplainedAt(json, guest, j.answers, j.parts, 0); }
  }

  /** One wake over the rows of a journal, after any number of calls, as long as it does not contradict
      the journal. */
  lemma {:induction false} WakeExtendsJournal(json: Json, guest: Guest, j: Journal, s: Session, worlds: nat -> World,
                                              calls: nat)
    returns (seg: Segment, j': Journal)
    requires Renders(json) && SoundWorlds(worlds)
    requires Valid(json, guest, j) && s == Begin(Rows(j), StartedBy(Rows(j)), s.nowMs)
    requires Comparable(Run(json, guest, s, worlds, calls).answers, j.answers)
    ensures seg == Run(json, guest, s, worlds, calls) && Tracks(json, guest, j, seg, j')
  {
    if calls == 0 {
      seg, j' := Pause(guest, s, []), j;
      WakeBegins(json, guest, j, s);
    } else {
      RunGrows(json, guest, s, worlds, calls - 1, calls);
      var before, j1 := WakeExtendsJournal(json, guest, j, s, worlds, calls - 1);
      seg := Continue(json, guest, before, worlds(calls - 1));
      j' := WakeGoesOn(json, guest, j, before, j1, worlds(calls - 1), seg);
    }
  }

  lemma {:induction false} WakeGoesOn(json: Json, guest: Guest, j: Journal, seg: Segment, j1: Journal, w: World,
                                      seg': Segment)
    returns (j': Journal)
    requires Renders(json) && Sound(w) && Tracks(json, guest, j, seg, j1)
    requires seg' == Continue(json, guest, seg, w) && Comparable(seg'.answers, j.answers)
    ensures j1.parts <= j'.parts
    ensures Tracks(json, guest, j, seg', j')
  {
    StillComparable(json, guest, j, seg, j1, w);
    j' := CallTracks(json, guest, j, seg, j1, w);
  }

  lemma {:induction false} StillComparable(json: Json, guest: Guest, j: Journal, seg: Segment, j1: Journal, w: World)
    requires j1.answers == j.answers || seg.answers == j1.answers
    requires Comparable(Continue(json, guest, seg, w).answers, j.answers)
    ensures Comparable(Continue(json, guest, seg, w).answers, j1.answers)
  {
  }

  /** The rest of a wake adds to the journal of its first `n` calls. */
  lemma {:induction false} WakeGoesOnFrom(json: Json, guest: Guest, j: Journal, s: Session, worlds: nat -> World, n: nat,
                                          seg1: Segment, j1: Journal, calls: nat)
    returns (seg: Segment, j': Journal)
    requires Renders(json) && SoundWorlds(worlds) && n <= calls
    requires seg1 == Run(json, guest, s, worlds, n) && Tracks(json, guest, j, seg1, j1)
    requires Comparable(Run(json, guest, s, worlds, calls).answers, j.answers)
    ensures seg == Run(json, guest, s, worlds, calls) && Tracks(json, guest, j, seg, j') && j1.parts <= j'.parts
    decreases calls
  {
    seg, j' := seg1, j1;
    if n < calls {
      RunGrows(json, guest, s, worlds, calls - 1, calls);
      var before, j2 := WakeGoesOnFrom(json, guest, j, s, worlds, n, seg1, j1, calls - 1);
      seg := Continue(json, guest, before, worlds(calls - 1));
      j' := WakeGoesOn(json, guest, j, before, j2, worlds(calls - 1), seg);
    }
  }

  /** Where a wake stands when it makes a call that has an answer in the journal. */
  lemma {:induction false} WakeStandsAt(json: Json, guest: Guest, j: Journal, s: Session, worlds: nat -> World, n: nat,
                                        calls: nat)
    returns (seg: Segment)
    requires Renders(json) && SoundWorlds(worlds)
    requires Valid(json, guest, j) && s == Begin(Rows(j), StartedBy(Rows(j)), s.nowMs)
    requires n < |j.answers| && n < |Run(json, guest, s, worlds, calls).answers|
    requires Run(json, guest, s, worlds, calls).answers[..n] == j.answers[..n]
    ensures seg == Run(json, guest, s, worlds, n) && seg.answers == j.answers[..n] && guest(j.answers[..n]).Ask?
    ensures |j.parts| == |j.answers| && StandsAt(j, n, seg.session) && seg.session.history == Rows(j)
    ensures Run(json, guest, s, worlds, calls).answers[n]
         == Call(json, seg.session, guest(j.answers[..n]).request, worlds(n)).1
  {
    seg := RunPrefix(json, guest, s, worlds, n, calls);
    var seg', j' := WakeExtendsJournal(json, guest, j, s, worlds, n);
    StandsInTheSame(json, guest, j, seg', j');
  }

  lemma {:induction false} StandsInTheSame(json: Json, guest: Guest, j: Journal, seg: Segment, j': Journal)
    requires Tracks(json, guest, j, seg, j') && seg.ending.Lost? && |seg.answers| < |j.answers|
    ensures j' == j && InProgress(j, seg) && seg.session.history == Rows(j)
  {
  }

  /** A wake can first contradict the journal only at a refused call or a poll. */
  lemma {:induction false} RecordedIsRepeated(json: Json, guest: Guest, j: Journal, s: Session, worlds: nat -> World,
                                              n: nat, calls: nat)
    requires Renders(json) && SoundWorlds(worlds)
    requires Valid(json, guest, j) && s == Begin(Rows(j), StartedBy(Rows(j)), s.nowMs)
    requires n < |j.answers| && n < |Run(json, guest, s, worlds, calls).answers|
    requires Run(json, guest, s, worlds, calls).answers[..n] == j.answers[..n]
    ensures Run(json, guest, s, worlds, calls).answers[n] == j.answers[n] || Unrecorded(j.answers[n])
  {
    var seg := WakeStandsAt(json, guest, j, s, worlds, n, calls);
    KnownCall(json, guest, j, n, seg.session, worlds(n));
  }

  // ---- Any number of wakes -----------------------------------------------------------------

  /** What outlives a wake: the event rows and the child workflows started. */
  datatype Durable = Durable(rows: map<nat, Row>, children: seq<string>)

  /** The rows in step order, as the history loader returns them. */
  ghost function Load(rows: map<nat, Row>): seq<Row> {
    if h: seq<Row> :| Table(h) == rows then h else []
  }

  lemma {:induction false} LoadTable(h: seq<Row>)
    ensures Load(Table(h)) == h
  {
    TableInjective(Load(Table(h)), h);
  }

  ghost function WakeOn(json: Json, guest: Guest, seedMs: nat, d: Durable, wake: Wake): Segment {
    Run(json, guest, Begin(Load(d.rows), d.children, seedMs), wake.worlds, wake.calls)
  }

  /** What the wake numbered `m` finds in the store. */
  function StoreBefore(segs: seq<Segment>, m: nat): Durable
    requires m <= |segs|
  {
    if m == 0 then Durable(map[], []) else Durable(segs[m - 1].session.rows, segs[m - 1].session.children)
  }

  /** These are the wakes of a new run, each over what the wakes before it left. */
  ghost predicate IsRun(json: Json, guest: Guest, seedMs: nat, wakes: seq<Wake>, segs: seq<Segment>) {
    && |segs| == |wakes|
    && forall m {:trigger wakes[m]} :: 0 <= m < |wakes| ==>
         segs[m] == WakeOn(json, guest, seedMs, StoreBefore(segs, m), wakes[m])
  }

  /** Any list of wakes is a run. */
  lemma {:induction false} RunExists(json: Json, guest: Guest, seedMs: nat, wakes: seq<Wake>) returns (segs: seq<Segment>)
    ensures IsRun(json, guest, seedMs, wakes, segs)
  {
    segs := [];
    if wakes != [] {
      var n := |wakes| - 1;
      var before := RunExists(json, guest, seedMs, wakes[..n]);
      segs := before + [WakeOn(json, guest, seedMs, StoreBefore(before, n), wakes[n])];
      forall m | 0 <= m < |wakes| ensures segs[m] == WakeOn(json, guest, seedMs, StoreBefore(segs, m), wakes[m]) {
        assert StoreBefore(segs, m) == StoreBefore(before, m);
        assert m < n ==> wakes[..n][m] == wakes[m];
      }
    }
  }

  ghost predicate SoundWakes(wakes: seq<Wake>) {
    forall i :: 0 <= i < |wakes| ==> SoundWorlds(wakes[i].worlds)
  }

  /** The store holds this journal. */
  ghost predicate Holds(json: Json, guest: Guest, d: Durable, j: Journal) {
    Valid(json, guest, j) && d.rows == Table(Rows(j)) && d.children == StartedBy(Rows(j))
  }

  /** The first `m` wakes never contradict each other. */
  predicate AllAgree(segs: seq<Segment>, m: nat)
    requires m <= |segs|
  {
    forall i, k :: 0 <= i < k < m ==> Comparable(segs[i].answers, segs[k].answers)
  }

  /** The journal holds what the first `m` wakes answered, and nothing else. */
  ghost predicate Gathers(json: Json, guest: Guest, segs: seq<Segment>, m: nat, j: Journal)
    requires m <= |segs|
  {
    Holds(json, guest, StoreBefore(segs, m), j) && Longest(segs, m, j.answers) && (Unrefused(j) ==> Tight(j))
  }

  lemma {:induction false} WakeGrows(json: Json, guest: Guest, seedMs: nat, d: Durable, wake: Wake, seg: Segment,
                                     j: Journal)
    returns (j': Journal)
    requires Renders(json) && SoundWorlds(wake.worlds) && seg == WakeOn(json, guest, seedMs, d, wake)
    requires Holds(json, guest, d, j) && Comparable(seg.answers, j.answers)
    ensures Grew(json, guest, j, seg, j')
  {
    LoadTable(Rows(j));
    var s := Begin(Rows(j), StartedBy(Rows(j)), seedMs);
    var seg', j1 := WakeExtendsJournal(json, guest, j, s, wake.worlds, wake.calls);
    j' := j1;
  }

  /** The longest of the first `m` wakes' answers. */
  predicate Longest(segs: seq<Segment>, m: nat, answers: seq<Answer>)
    requires m <= |segs|
  {
    && (forall i :: 0 <= i < m ==> segs[i].answers <= answers)
    && (answers == [] || exists i :: 0 <= i < m && segs[i].answers == answers)
  }

  lemma {:induction false} LongestOfOneMore(segs: seq<Segment>, m: nat, answers: seq<Answer>, answers': seq<Answer>)
    requires m < |segs| && Longest(segs, m, answers) && answers <= answers' && segs[m].answers <= answers'
    requires answers' == answers || segs[m].answers == answers'
    ensures Longest(segs, m + 1, answers')
  {
    forall i | 0 <= i <= m ensures segs[i].answers <= answers' {
      assert i < m ==> segs[i].answers <= answers <= answers';
    }
  }

  lemma {:induction false} GathersOne(json: Json, guest: Guest, segs: seq<Segment>, m: nat, j: Journal, j': Journal)
    requires m < |segs| && Gathers(json, guest, segs, m, j) && Grew(json, guest, j, segs[m], j')
    ensures Gathers(json, guest, segs, m + 1, j')
  {
    assert Unrefused(j') ==> Unrefused(j);
    LongestOfOneMore(segs, m, j.answers, j'.answers);
  }

  lemma {:induction false} WakeGathers(json: Json, guest: Guest, seedMs: nat, wakes: seq<Wake>, segs: seq<Segment>,
                                       m: nat, j: Journal)
    returns (j': Journal)
    requires Renders(json) && SoundWakes(wakes) && IsRun(json, guest, seedMs, wakes, segs) && m < |wakes|
    requires Gathers(json, guest, segs, m, j) && AllAgree(segs, m + 1)
    ensures Gathers(json, guest, segs, m + 1, j') && Grew(json, guest, j, segs[m], j')
  {
    if j.answers != [] {
      var i :| 0 <= i < m && segs[i].answers == j.answers;
    }
    j' := WakeGrows(json, guest, seedMs, StoreBefore(segs, m), wakes[m], segs[m], j);
    GathersOne(json, guest, segs, m, j, j');
  }

  lemma {:induction false} JournalAfter(json: Json, guest: Guest, seedMs: nat, wakes: seq<Wake>, segs: seq<Segment>,
                                        m: nat)
    returns (j: Journal)
    requires Renders(json) && SoundWakes(wakes) && IsRun(json, guest, seedMs, wakes, segs) && m <= |wakes|
    requires AllAgree(segs, m)
    ensures Gathers(json, guest, segs, m, j)
  {
    if m == 0 {
      j := Journal([], [], []);
      assert Rows(j) == [] && Table([]) == map[];
    } else {
      var j1 := JournalAfter(json, guest, seedMs, wakes, segs, m - 1);
      j := WakeGathers(json, guest, seedMs, wakes, segs, m - 1, j1);
    }
  }

  // ---- When the wakes of a run agree ---------------------------------------------------------------

  /** Whatever the earlier wake was answered without a record, the later one is answered the same, if it
      comes to that call by the same answers. */
  predicate Repeats(earlier: seq<Answer>, later: seq<Answer>) {
    forall n :: 0 <= n < |earlier| && n < |later| && earlier[..n] == later[..n] && Unrecorded(earlier[n]) ==>
      later[n] == earlier[n]
  }

  predicate Steady(segs: seq<Segment>) {
    forall i, m :: 0 <= i < m < |segs| ==> Repeats(segs[i].answers, segs[m].answers)
  }

  lemma {:induction false} ComparableRepeats(a: seq<Answer>, b: seq<Answer>)
    requires Comparable(a, b)
    ensures Repeats(a, b)
  {
  }

  lemma {:induction false} FirstDifference(a: seq<Answer>, b: seq<Answer>) returns (n: nat)
    requires !Comparable(a, b)
    ensures n < |a| && n < |b| && a[..n] == b[..n] && a[n] != b[n]
  {
    n := 0;
    while n < |a| && n < |b| && a[n] == b[n]
      invariant n <= |a| && n <= |b| && a[..n] == b[..n]
    {
      n := n + 1;
    }
    assert a[..|a|] == a && b[..|b|] == b;
  }

  lemma {:induction false} ComparableThrough(a: seq<Answer>, b: seq<Answer>, c: seq<Answer>)
    requires a <= b && Comparable(b, c)
    ensures Comparable(a, c)
  {
    if c <= b {
      assert |a| <= |c| ==> a == b[..|a|] == c[..|a|];
      assert |c| <= |a| ==> c == b[..|c|] == a[..|c|];
    }
  }

  /** One more wake that repeats what was not recorded does not contradict any earlier one. */
  lemma {:induction false} OneMoreAgrees(json: Json, guest: Guest, seedMs: nat, wakes: seq<Wake>, segs: seq<Segment>,
                                         m: nat)
    requires Renders(json) && SoundWakes(wakes) && IsRun(json, guest, seedMs, wakes, segs) && m < |wakes|
    requires AllAgree(segs, m) && forall i :: 0 <= i < m ==> Repeats(segs[i].answers, segs[m].answers)
    ensures AllAgree(segs, m + 1)
  {
    var j := JournalAfter(json, guest, seedMs, wakes, segs, m);
    if !Comparable(j.answers, segs[m].answers) {
      var x :| 0 <= x < m && segs[x].answers == j.answers;
      var n := FirstDifference(j.answers, segs[m].answers);
      WakeRepeatsRecorded(json, guest, seedMs, StoreBefore(segs, m), wakes[m], segs[m], j, n);
    }
    forall i | 0 <= i < m ensures Comparable(segs[i].answers, segs[m].answers) {
      ComparableThrough(segs[i].answers, j.answers, segs[m].answers);
    }
  }

  lemma {:induction false} WakeRepeatsRecorded(json: Json, guest: Guest, seedMs: nat, d: Durable, wake: Wake,
                                               seg: Segment, j: Journal, n: nat)
    requires Renders(json) && SoundWorlds(wake.worlds) && seg == WakeOn(json, guest, seedMs, d, wake)
    requires Holds(json, guest, d, j) && n < |j.answers| && n < |seg.answers| && j.answers[..n] == seg.answers[..n]
    ensures seg.answers[n] == j.answers[n] || Unrecorded(j.answers[n])
  {
    LoadTable(Rows(j));
    RecordedIsRepeated(json, guest, j, Begin(Rows(j), StartedBy(Rows(j)), seedMs), wake.worlds, n, wake.calls);
  }

  lemma {:induction false} SteadyAgrees(json: Json, guest: Guest, seedMs: nat, wakes: seq<Wake>, segs: seq<Segment>,
                                        m: nat)
    requires Renders(json) && SoundWakes(wakes) && IsRun(json, guest, seedMs, wakes, segs) && m <= |wakes|
    requires Steady(segs)
    ensures AllAgree(segs, m)
  {
    if m > 0 {
      SteadyAgrees(json, guest, seedMs, wakes, segs, m - 1);
      OneMoreAgrees(json, guest, seedMs, wakes, segs, m - 1);
    }
  }

  /** Over every run of every guest: no two wakes contradict each other if and only if what was answered
      without a record, a refused call or a poll, is answered the same by every later wake that comes to
      it. What was recorded never changes. */
  lemma {:induction false} WakesAgreeExactly(json: Json, guest: Guest, seedMs: nat, wakes: seq<Wake>,
                                             segs: seq<Segment>)
    requires Renders(json) && SoundWakes(wakes) && IsRun(json, guest, seedMs, wakes, segs)
    ensures AllAgree(segs, |segs|) <==> Steady(segs)
  {
    if Steady(segs) {
      SteadyAgrees(json, guest, seedMs, wakes, segs, |segs|);
    }
    if AllAgree(segs, |segs|) {
      forall i, m | 0 <= i < m < |segs| ensures Repeats(segs[i].answers, segs[m].answers) {
        ComparableRepeats(segs[i].answers, segs[m].answers);
      }
    }
  }

  // ---- What agreement means --------------------------------------------------------------------------

  /** The run ids the guest was told it started. */
  function StartsIn(answers: seq<Answer>): seq<string> {
    if answers == [] then []
    else
      var n := |answers| - 1;
      StartsIn(answers[..n]) + (if answers[n].Started? then [answers[n].runID] else [])
  }

  lemma {:induction false} StartsInPrefix(a: seq<Answer>, b: seq<Answer>)
    requires a <= b
    ensures StartsIn(a) <= StartsIn(b)
  {
    if a != b { StartsInPrefix(a, b[..|b| - 1]); }
  }

  /** No answer is a divergence or a suspension. */
  predicate Ordinary(answers: seq<Answer>) {
    Diverged !in answers && Suspended !in answers
  }

  lemma {:induction false} PartMatchesAnswer(json: Json, req: Request, a: Answer, part: seq<Row>)
    requires Explains(json, req, a, part)
    ensures StartedBy(part) == (if a.Started? then [a.runID] else [])
    ensures a != Diverged && a != Suspended
  {
    if req.StartChild? && !Unrecorded(a) {
      assert part[..0] == [];
    } else {
      StartsNothing(part);
    }
  }

  lemma {:induction false} PartsMatchAnswers(json: Json, guest: Guest, answers: seq<Answer>, parts: seq<seq<Row>>)
    requires Explained(json, guest, answers, parts)
    ensures StartedBy(Flatten(parts)) == StartsIn(answers)
  {
    if answers != [] {
      var n := |answers| - 1;
      PartsMatchAnswers(json, guest, answers[..n], parts[..n]);
      StartedByConcat(Flatten(parts[..n]), parts[n]);
      PartMatchesAnswer(json, guest(answers[..n]).request, answers[n], parts[n]);
    }
  }

  lemma {:induction false} ExplainedIsOrdinary(json: Json, guest: Guest, answers: seq<Answer>, parts: seq<seq<Row>>)
    requires Explained(json, guest, answers, parts)
    ensures Ordinary(answers)
  {
    forall i | 0 <= i < |answers| ensures answers[i] != Diverged && answers[i] != Suspended {
      ExplainedAt(json, guest, answers, parts, i);
      PartMatchesAnswer(json, guest(answers[..i]).request, answers[i], parts[i]);
    }
  }

  /** One child workflow exists for each start the guest was answered, and no other. */
  lemma {:induction false} ChildrenAreAnswers(json: Json, guest: Guest, j: Journal)
    requires Valid(json, guest, j)
    ensures StartedBy(Rows(j)) == StartsIn(j.answers) && Ordinary(j.answers)
  {
    PartsMatchAnswers(json, guest, j.answers, j.parts);
    ExplainedIsOrdinary(json, guest, j.answers, j.parts);
    StartedByConcat(Flatten(j.parts), j.open);
    StartsNothing(j.open);
  }

  /** Two wakes of one run never contradict each other; a later wake repeats everything an earlier one
      was answered, unless it is cut short, or suspended at a start that was refused. */
  predicate Agree(earlier: Segment, later: Segment) {
    && Comparable(earlier.answers, later.answers)
    && (earlier.answers <= later.answers || Through(later, earlier.answers))
    && earlier.session.children <= later.session.children
  }

  predicate SuspendRecord(r: Row) {
    r.kind == AwaitAnyChild && r.response == ""
  }

  /** No await-any call has left two suspend records in a row. */
  predicate OneSuspendRecordEach(rows: seq<Row>) {
    forall i :: 0 < i < |rows| ==> !(SuspendRecord(rows[i - 1]) && SuspendRecord(rows[i]))
  }

  /** At most one suspend record each, and the last row is none. */
  predicate Settles(rows: seq<Row>) {
    OneSuspendRecordEach(rows) && (rows != [] ==> !SuspendRecord(rows[|rows| - 1]))
  }

  lemma {:induction false} SettlesOn(rows: seq<Row>, part: seq<Row>)
    requires Settles(rows) && |part| <= 2 && (part != [] ==> !SuspendRecord(part[|part| - 1]))
    ensures Settles(rows + part)
  {
  }

  lemma {:induction false} TightParts(json: Json, guest: Guest, answers: seq<Answer>, parts: seq<seq<Row>>)
    requires Explained(json, guest, answers, parts)
    requires forall i :: 0 <= i < |parts| ==> |parts[i]| <= 2
    ensures Settles(Flatten(parts))
  {
    if parts != [] {
      var n := |parts| - 1;
      TightParts(json, guest, answers[..n], parts[..n]);
      SettlesOn(Flatten(parts[..n]), parts[n]);
    }
  }

  lemma {:induction false} TightRows(json: Json, guest: Guest, j: Journal)
    requires Valid(json, guest, j) && Tight(j)
    ensures OneSuspendRecordEach(Rows(j))
  {
    TightParts(json, guest, j.answers, j.parts);
  }

  lemma {:induction false} WakeIsOrdinary(json: Json, guest: Guest, j: Journal, seg: Segment, j': Journal)
    requires Grew(json, guest, j, seg, j')
    ensures Ordinary(seg.answers) && StartsIn(seg.answers) <= seg.session.children
    ensures seg.answers == j'.answers ==> seg.session.children == StartsIn(seg.answers)
    ensures Tight(j') ==> OneSuspendRecordEach(Load(seg.session.rows))
  {
    if Tight(j') { TightRows(json, guest, j'); }
    LoadTable(Rows(j'));
    ChildrenAreAnswers(json, guest, j');
    StartsInPrefix(seg.answers, j'.answers);
  }

  /** What happens after the wake `i` only adds to its journal. */
  lemma {:induction false} JournalGrows(json: Json, guest: Guest, seedMs: nat, wakes: seq<Wake>, segs: seq<Segment>,
                                        i: nat, j: Journal, m: nat)
    returns (j': Journal)
    requires Renders(json) && SoundWakes(wakes) && IsRun(json, guest, seedMs, wakes, segs)
    requires i < m <= |segs| && Gathers(json, guest, segs, i + 1, j) && AllAgree(segs, m)
    ensures Gathers(json, guest, segs, m, j')
    ensures j.answers <= j'.answers && j.parts <= j'.parts && (i + 1 < m ==> Through(segs[m - 1], j'.answers))
    decreases m
  {
    if i + 1 == m {
      j' := j;
    } else {
      var before := JournalGrows(json, guest, seedMs, wakes, segs, i, j, m - 1);
      j' := WakeGathers(json, guest, seedMs, wakes, segs, m - 1, before);
    }
  }

  lemma {:induction false} WakesAgree(json: Json, guest: Guest, seedMs: nat, wakes: seq<Wake>, segs: seq<Segment>,
                                      i: nat, k: nat)
    requires Renders(json) && SoundWakes(wakes) && IsRun(json, guest, seedMs, wakes, segs) && AllAgree(segs, |segs|)
    requires i < k < |segs|
    ensures Agree(segs[i], segs[k])
  {
    var j := JournalAfter(json, guest, seedMs, wakes, segs, i + 1);
    var j' := JournalGrows(json, guest, seedMs, wakes, segs, i, j, k + 1);
    GathersAgree(json, guest, segs, i, j, k, j');
  }

  lemma {:induction false} GathersAgree(json: Json, guest: Guest, segs: seq<Segment>, i: nat, j: Journal, k: nat,
                                        j': Journal)
    requires i < k < |segs| && Gathers(json, guest, segs, i + 1, j) && Gathers(json, guest, segs, k + 1, j')
    requires AllAgree(segs, |segs|) && j.answers <= j'.answers && Through(segs[k], j'.answers)
    ensures Agree(segs[i], segs[k])
  {
    ChildrenAreAnswers(json, guest, j);
    ChildrenAreAnswers(json, guest, j');
    StartsInPrefix(j.answers, j'.answers);
    ThroughPrefix(segs[k], j'.answers, segs[i].answers);
  }

  lemma {:induction false} ThroughPrefix(seg: Segment, answers: seq<Answer>, earlier: seq<Answer>)
    requires Through(seg, answers) && seg.answers <= answers && earlier <= answers
    ensures earlier <= seg.answers || Through(seg, earlier)
  {
    assert |seg.answers| < |earlier| ==> earlier[|seg.answers|] == answers[|seg.answers|];
  }

  /** Replay determinism. Over every run in which polls and refusals repeat, through any number of wakes,
      each seeing any state of the children and lost after any number of calls: all wakes agree, no call
      ever diverges, each start a guest was told of created exactly one child, and each await-any of a run
      without refusals has left at most one suspend record. */
  lemma {:induction false} ReplayIsDeterministic(json: Json, guest: Guest, seedMs: nat, wakes: seq<Wake>,
                                                 segs: seq<Segment>, i: nat, k: nat)
    requires Renders(json) && SoundWakes(wakes) && IsRun(json, guest, seedMs, wakes, segs) && Steady(segs)
    requires i <= k < |segs|
    ensures i < k ==> Agree(segs[i], segs[k])
    ensures Ordinary(segs[k].answers) && StartsIn(segs[k].answers) <= segs[k].session.children
    ensures segs[k].ending.Finished? ==> segs[k].session.children == StartsIn(segs[k].answers)
    ensures (forall x :: 0 <= x <= k ==> Refused !in segs[x].answers) ==>
              OneSuspendRecordEach(Load(segs[k].session.rows))
  {
    WakesAgreeExactly(json, guest, seedMs, wakes, segs);
    if i < k { WakesAgree(json, guest, seedMs, wakes, segs, i, k); }
    var j := JournalAfter(json, guest, seedMs, wakes, segs, k);
    var j' := WakeGathers(json, guest, seedMs, wakes, segs, k, j);
    WakeIsOrdinary(json, guest, j, segs[k], j');
  }
}
