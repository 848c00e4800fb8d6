/**
 When a refused call or a poll is answered the same by a later wake, over every run: the exact
 condition for each. Together with `ReplayDeterminism.WakesAgreeExactly` they say when the wakes of
 a run agree.
 */
module UnrecordedAnswers {
  import opened EventTable
  import opened ChildCalls
  import opened Journals
  import opened ReplayDeterminism
  import opened ReplayClocks

  /** The session in which a wake makes its call numbered `n`. */
  ghost function SessionAt(json: Json, guest: Guest, seedMs: nat, d: Durable, wake: Wake, n: nat): Session {
    Run(json, guest, Begin(Load(d.rows), d.children, seedMs), wake.worlds, n).session
  }

  /** Two wakes of a run, the earlier ones agreeing, that come to the call numbered `n` by the same
      answers. */
  ghost predicate BothCall(json: Json, guest: Guest, seedMs: nat, wakes: seq<Wake>, segs: seq<Segment>, i: nat, m: nat,
                           n: nat)
  {
    && Renders(json) && SoundWakes(wakes) && IsRun(json, guest, seedMs, wakes, segs)
    && i < m < |segs| && AllAgree(segs, m)
    && n < |segs[i].answers| && n < |segs[m].answers| && segs[i].answers[..n] == segs[m].answers[..n]
  }

  lemma {:induction false} MakesCall(json: Json, guest: Guest, seedMs: nat, d: Durable, wake: Wake, seg: Segment, n: nat)
    returns (s: Session)
    requires seg == WakeOn(json, guest, seedMs, d, wake) && n < |seg.answers|
    ensures s == SessionAt(json, guest, seedMs, d, wake, n) && guest(seg.answers[..n]).Ask?
    ensures seg.answers[n] == Call(json, s, guest(seg.answers[..n]).request, wake.worlds(n)).1
  {
    var before := RunPrefix(json, guest, Begin(Load(d.rows), d.children, seedMs), wake.worlds, n, wake.calls);
    s := before.session;
  }

  // ---- Refused calls -----------------------------------------------------------------------------

  lemma {:induction false} StandsAtCall(json: Json, guest: Guest, seedMs: nat, d: Durable, wake: Wake, seg: Segment,
                                        j: Journal, n: nat)
    returns (s: Session)
    requires Renders(json) && SoundWorlds(wake.worlds) && seg == WakeOn(json, guest, seedMs, d, wake)
    requires Holds(json, guest, d, j) && n < |j.answers| && n < |seg.answers| && j.answers[..n] == seg.answers[..n]
    ensures s == SessionAt(json, guest, seedMs, d, wake, n) && guest(j.answers[..n]).Ask?
    ensures |j.parts| == |j.answers| && StandsAt(j, n, s) && s.history == Rows(j)
    ensures seg.answers[n] == Call(json, s, guest(j.answers[..n]).request, wake.worlds(n)).1
  {
    LoadTable(Rows(j));
    var before := WakeStandsAt(json, guest, j, Begin(Rows(j), StartedBy(Rows(j)), seedMs), wake.worlds, n, wake.calls);
    s := before.session;
  }

  /** A refused call is refused again exactly when nothing was recorded after it and it is refused
      afresh, or what was recorded after it is the record of a suspended await of its own kind. */
  lemma {:induction false} RefusedCallRepeats(json: Json, guest: Guest, seedMs: nat, wakes: seq<Wake>,
                                              segs: seq<Segment>, i: nat, m: nat, n: nat)
    requires BothCall(json, guest, seedMs, wakes, segs, i, m, n) && segs[i].answers[n].Refused?
    ensures guest(segs[m].answers[..n]).Ask?
    ensures segs[m].answers[n] == Refused
       <==> RefusedAgain(json, guest(segs[m].answers[..n]).request,
                         SessionAt(json, guest, seedMs, StoreBefore(segs, m), wakes[m], n), wakes[m].worlds(n))
  {
    var j := JournalAfter(json, guest, seedMs, wakes, segs, m);
    assert segs[i].answers <= j.answers;
    assert j.answers[..n] == segs[i].answers[..n];
    var s := StandsAtCall(json, guest, seedMs, StoreBefore(segs, m), wakes[m], segs[m], j, n);
    RefusalRepeats(json, guest, j, n, s, wakes[m].worlds(n));
  }

  // ---- Polls -------------------------------------------------------------------------------------

  /** How a child ends, and when. */
  datatype Fate = Fate(reading: Reading, at: nat)

  /** What a wake sees of a child that ends so: its end, or that it is running, which is then after the
      clock of the call. */
  predicate Foresees(w: World, id: string, fate: Fate, clock: nat) {
    || (w.read(id) == fate.reading && w.completedAt(id) == At(fate.at))
    || (w.read(id).Running? && clock < fate.at)
  }

  /** A poll is answered the same exactly when the child ended by both clocks or by neither, whether it
      completed or failed. */
  lemma {:induction false} PollRepeats(json: Json, guest: Guest, seedMs: nat, wakes: seq<Wake>, segs: seq<Segment>,
                                       i: nat, m: nat, n: nat, id: string, fate: Fate)
    requires BothCall(json, guest, seedMs, wakes, segs, i, m, n) && guest(segs[m].answers[..n]) == Ask(Poll(id))
    requires fate.reading.Done? || fate.reading.Failed?
    requires Foresees(wakes[i].worlds(n), id, fate,
                      SessionAt(json, guest, seedMs, StoreBefore(segs, i), wakes[i], n).nowMs)
    requires Foresees(wakes[m].worlds(n), id, fate,
                      SessionAt(json, guest, seedMs, StoreBefore(segs, m), wakes[m], n).nowMs)
    ensures var earlier := SessionAt(json, guest, seedMs, StoreBefore(segs, i), wakes[i], n).nowMs;
            var later := SessionAt(json, guest, seedMs, StoreBefore(segs, m), wakes[m], n).nowMs;
            segs[m].answers[n] == segs[i].answers[n] <==> (fate.at <= earlier <==> fate.at <= later)
  {
    var s := MakesCall(json, guest, seedMs, StoreBefore(segs, i), wakes[i], segs[i], n);
    var t := MakesCall(json, guest, seedMs, StoreBefore(segs, m), wakes[m], segs[m], n);
    PollByClock(s.nowMs, wakes[i].worlds(n), id, fate);
    PollByClock(t.nowMs, wakes[m].worlds(n), id, fate);
  }

  lemma {:induction false} PollByClock(clock: nat, w: World, id: string, fate: Fate)
    requires (fate.reading.Done? || fate.reading.Failed?) && Foresees(w, id, fate, clock)
    ensures StatusAt(clock, w.read(id), w.completedAt(id)) == StatusAt(clock, fate.reading, At(fate.at))
    ensures StatusAt(clock, fate.reading, At(fate.at)) == StillRunning <==> clock < fate.at
    ensures forall c :: fate.at <= c && fate.at <= clock ==>
              StatusAt(c, fate.reading, At(fate.at)) == StatusAt(clock, fate.reading, At(fate.at))
  {
  }

  // ---- The clock of a call that is made again ------------------------------------------------------

  ghost predicate TimedWakes(wakes: seq<Wake>) {
    forall i {:trigger wakes[i]} :: 0 <= i < |wakes| ==> forall n :: wakes[i].worlds(n).clock > 0
  }

  /** A wake changes no row's time, from its beginning and from any of its calls. */
  lemma {:induction false} WakeKeepsTime(json: Json, guest: Guest, seedMs: nat, d: Durable, wake: Wake, seg: Segment,
                                         j: Journal, n: nat)
    returns (s: Session)
    requires Holds(json, guest, d, j) && seg == WakeOn(json, guest, seedMs, d, wake) && n <= wake.calls
    requires forall i :: wake.worlds(i).clock > 0
    ensures s == SessionAt(json, guest, seedMs, d, wake, n)
    ensures TableAdvances(d.rows, seg.session.rows) && TableAdvances(s.rows, seg.session.rows)
    ensures Timed(d.rows) ==> Timed(seg.session.rows)
    ensures Load(d.rows) == Rows(j) && InTime(d.rows, Rows(j), seedMs, s)
  {
    LoadTable(Rows(j));
    var start := Begin(Rows(j), d.children, seedMs);
    var first, last := WakeAdvances(json, guest, start, wake.worlds, 0, wake.calls);
    var mid, last' := WakeAdvances(json, guest, start, wake.worlds, n, wake.calls);
    var seg' := WakeInTime(json, guest, Rows(j), d.children, seedMs, wake.worlds, n);
    s := mid.session;
  }

  lemma {:induction false} StoresKeepTime(json: Json, guest: Guest, seedMs: nat, wakes: seq<Wake>, segs: seq<Segment>,
                                          i: nat, m: nat)
    requires Renders(json) && SoundWakes(wakes) && TimedWakes(wakes) && IsRun(json, guest, seedMs, wakes, segs)
    requires i <= m <= |segs| && AllAgree(segs, m)
    ensures TableAdvances(StoreBefore(segs, i).rows, StoreBefore(segs, m).rows)
    ensures Timed(StoreBefore(segs, m).rows)
    decreases m
  {
    if m > 0 {
      StoresKeepTime(json, guest, seedMs, wakes, segs, if i < m then i else m - 1, m - 1);
      var j := JournalAfter(json, guest, seedMs, wakes, segs, m - 1);
      var _ := WakeKeepsTime(json, guest, seedMs, StoreBefore(segs, m - 1), wakes[m - 1], segs[m - 1], j, 0);
    }
  }

  /** Without a refusal on the way a session has consumed the rows of exactly the answered calls. */
  lemma {:induction false} ConsumedSoFar(j: Journal, n: nat, s: Session)
    requires |j.parts| == |j.answers| && n <= |j.parts| && StandsAt(j, n, s) && Refused !in j.answers[..n]
    ensures s.stepCount == |Flatten(j.parts[..n])|
  {
  }

  /** The journal when a wake makes its call, and the journals its run goes on with. */
  lemma {:induction false} JournalAtCall(json: Json, guest: Guest, seedMs: nat, d: Durable, wake: Wake, seg: Segment,
                                         j: Journal, n: nat)
    returns (s: Session, j1: Journal, j': Journal)
    requires Renders(json) && SoundWorlds(wake.worlds) && seg == WakeOn(json, guest, seedMs, d, wake)
    requires Holds(json, guest, d, j) && n < |seg.answers| && Comparable(seg.answers, j.answers)
    ensures s == SessionAt(json, guest, seedMs, d, wake, n)
    ensures |j1.parts| == |j1.answers| && n <= |j1.parts| && StandsAt(j1, n, s) && j1.answers[..n] == seg.answers[..n]
    ensures j1.parts <= j'.parts && Grew(json, guest, j, seg, j')
  {
    LoadTable(Rows(j));
    var start := Begin(Rows(j), StartedBy(Rows(j)), seedMs);
    var at := RunPrefix(json, guest, start, wake.worlds, n, wake.calls);
    ComparableThrough(at.answers, seg.answers, j.answers);
    var at', j2 := WakeExtendsJournal(json, guest, j, start, wake.worlds, n);
    var seg', j3 := WakeGoesOnFrom(json, guest, j, start, wake.worlds, n, at', j2, wake.calls);
    s, j1, j' := at.session, j2, j3;
  }

  /** Two wakes that come to a call by the same answers, with no refusal among them, have consumed as
      many rows, and the later one has recorded none. */
  lemma {:induction false} StepsAgree(json: Json, guest: Guest, seedMs: nat, wakes: seq<Wake>, segs: seq<Segment>, i: nat,
                                      m: nat, n: nat)
    returns (s: Session, t: Session)
    requires BothCall(json, guest, seedMs, wakes, segs, i, m, n) && Refused !in segs[i].answers[..n]
    ensures s == SessionAt(json, guest, seedMs, StoreBefore(segs, i), wakes[i], n)
    ensures t == SessionAt(json, guest, seedMs, StoreBefore(segs, m), wakes[m], n)
    ensures s.stepCount == t.stepCount && t.history == Load(StoreBefore(segs, m).rows)
  {
    var j1, j';
    s, j1, j' := EarlierCall(json, guest, seedMs, wakes, segs, i, m, n);
    t := StandsAtCall(json, guest, seedMs, StoreBefore(segs, m), wakes[m], segs[m], j', n);
    SameSteps(j1, j', n, s, t);
    LoadTable(Rows(j'));
  }

  lemma {:induction false} SameSteps(j: Journal, j': Journal, n: nat, s: Session, t: Session)
    requires |j.parts| == |j.answers| && n <= |j.parts| && StandsAt(j, n, s)
    requires |j'.parts| == |j'.answers| && n <= |j'.parts| && StandsAt(j', n, t)
    requires j.parts <= j'.parts && j.answers[..n] == j'.answers[..n] && Refused !in j.answers[..n]
    ensures s.stepCount == t.stepCount
  {
    ConsumedSoFar(j, n, s);
    ConsumedSoFar(j', n, t);
    assert j.parts[..n] == j'.parts[..n];
  }

  /** Where the earlier wake stood, and the journal the later one finds. */
  lemma {:induction false} EarlierCall(json: Json, guest: Guest, seedMs: nat, wakes: seq<Wake>, segs: seq<Segment>,
                                       i: nat, m: nat, n: nat)
    returns (s: Session, j1: Journal, j': Journal)
    requires BothCall(json, guest, seedMs, wakes, segs, i, m, n)
    ensures s == SessionAt(json, guest, seedMs, StoreBefore(segs, i), wakes[i], n)
    ensures |j1.parts| == |j1.answers| && n <= |j1.parts| && StandsAt(j1, n, s)
    ensures Holds(json, guest, StoreBefore(segs, m), j') && j1.parts <= j'.parts && n < |j'.answers|
    ensures j1.answers[..n] == segs[i].answers[..n] == j'.answers[..n]
  {
    var j := JournalAfter(json, guest, seedMs, wakes, segs, i);
    WakeIsComparable(json, guest, segs, i, j);
    var j2;
    s, j1, j2 := JournalAtCall(json, guest, seedMs, StoreBefore(segs, i), wakes[i], segs[i], j, n);
    GathersOne(json, guest, segs, i, j, j2);
    j' := JournalGrows(json, guest, seedMs, wakes, segs, i, j2, m);
    assert segs[i].answers <= j'.answers;
  }

  lemma {:induction false} WakeIsComparable(json: Json, guest: Guest, segs: seq<Segment>, i: nat, j: Journal)
    requires i < |segs| && Gathers(json, guest, segs, i, j) && AllAgree(segs, i + 1)
    ensures Comparable(segs[i].answers, j.answers)
  {
    if j.answers != [] {
      var x :| 0 <= x < i && segs[x].answers == j.answers;
    }
  }

  lemma {:induction false} ClockAfterSame(a: seq<Row>, b: seq<Row>, seedMs: nat)
    requires |a| == |b| && forall x :: 0 <= x < |a| ==> a[x].createdAt == b[x].createdAt
    ensures ClockAfter(a, seedMs) == ClockAfter(b, seedMs)
  {
    if a != [] { ClockAfterSame(a[..|a| - 1], b[..|b| - 1], seedMs); }
  }

  /** The session last recorded over a row that an earlier wake had left open at another time. */
  ghost predicate CompletedLate(d: Durable, s: Session) {
    && |s.history| > |Load(d.rows)| && s.stepCount > 0 && s.stepCount - 1 in d.rows
    && d.rows[s.stepCount - 1].createdAt != s.nowMs
  }

  lemma {:induction false} ClocksMeet(h: seq<Row>, h': seq<Row>, seedMs: nat, s: Session, t: Session)
    requires InTime(Table(h), h, seedMs, s) && InTime(Table(h'), h', seedMs, t) && t.history == h'
    requires TableAdvances(Table(h), Table(h')) && TableAdvances(s.rows, Table(h')) && Timed(Table(h'))
    requires s.stepCount == t.stepCount
    ensures s.nowMs == t.nowMs <==> !(|s.history| > |h| && s.stepCount - 1 < |h| && h[s.stepCount - 1].createdAt != s.nowMs)
  {
    var n := s.stepCount;
    if |s.history| == |h| {
      forall x | 0 <= x < n ensures h[x].createdAt == h'[x].createdAt {
        assert x in Table(h) && Table(h')[x] == h'[x];
      }
      ClockAfterSame(h[..n], h'[..n], seedMs);
    } else {
      assert n - 1 in s.rows && n - 1 in Table(h');
      assert h'[..n][n - 1] == h'[n - 1] == Table(h')[n - 1];
      assert n - 1 in Table(h) <==> n - 1 < |h|;
    }
  }

  /** The clock of a call that is made again is that of the last record before it. It is what it was in
      the earlier wake if and only if that wake did not complete, at another time, a row that was left
      open before it. */
  lemma {:induction false} ClockRepeats(json: Json, guest: Guest, seedMs: nat, wakes: seq<Wake>, segs: seq<Segment>,
                                        i: nat, m: nat, n: nat)
    requires BothCall(json, guest, seedMs, wakes, segs, i, m, n) && TimedWakes(wakes)
    requires Refused !in segs[i].answers[..n]
    ensures var d, e := StoreBefore(segs, i), StoreBefore(segs, m);
            var s, t := SessionAt(json, guest, seedMs, d, wakes[i], n), SessionAt(json, guest, seedMs, e, wakes[m], n);
            && t.stepCount == s.stepCount <= |Load(e.rows)|
            && t.nowMs == ClockAfter(Load(e.rows)[..t.stepCount], seedMs)
            && (t.nowMs == s.nowMs <==> !CompletedLate(d, s))
  {
    var d, e := StoreBefore(segs, i), StoreBefore(segs, m);
    var s, t := StepsAgree(json, guest, seedMs, wakes, segs, i, m, n);
    var h := CallInTimeOf(json, guest, seedMs, wakes, segs, i, n, s);
    var h' := CallInTimeOf(json, guest, seedMs, wakes, segs, m, n, t);
    StoresKeepTime(json, guest, seedMs, wakes, segs, i, m);
    StoresKeepTime(json, guest, seedMs, wakes, segs, i + 1, m);
    AdvancesThrough(s.rows, StoreBefore(segs, i + 1).rows, e.rows);
    ClocksMeet(h, h', seedMs, s, t);
  }

  lemma {:induction false} AdvancesThrough(a: map<nat, Row>, b: map<nat, Row>, c: map<nat, Row>)
    requires TableAdvances(a, b) && TableAdvances(b, c)
    ensures TableAdvances(a, c)
  {
  }

  lemma {:induction false} CallInTimeOf(json: Json, guest: Guest, seedMs: nat, wakes: seq<Wake>, segs: seq<Segment>,
                                        m: nat, n: nat, s: Session)
    returns (h: seq<Row>)
    requires Renders(json) && SoundWakes(wakes) && TimedWakes(wakes) && IsRun(json, guest, seedMs, wakes, segs)
    requires m < |segs| && AllAgree(segs, m) && n < |segs[m].answers|
    requires s == SessionAt(json, guest, seedMs, StoreBefore(segs, m), wakes[m], n)
    ensures h == Load(StoreBefore(segs, m).rows) && StoreBefore(segs, m).rows == Table(h)
    ensures InTime(Table(h), h, seedMs, s) && TableAdvances(s.rows, segs[m].session.rows)
  {
    var j := JournalAfter(json, guest, seedMs, wakes, segs, m);
    CallBeforeLost(json, guest, seedMs, StoreBefore(segs, m), wakes[m], segs[m], n);
    var s' := WakeKeepsTime(json, guest, seedMs, StoreBefore(segs, m), wakes[m], segs[m], j, n);
    h := Rows(j);
  }

  lemma {:induction false} CallBeforeLost(json: Json, guest: Guest, seedMs: nat, d: Durable, wake: Wake, seg: Segment,
                                          n: nat)
    requires seg == WakeOn(json, guest, seedMs, d, wake) && n < |seg.answers|
    ensures n < wake.calls
  {
    RunLength(json, guest, Begin(Load(d.rows), d.children, seedMs), wake.worlds, wake.calls);
  }
}
