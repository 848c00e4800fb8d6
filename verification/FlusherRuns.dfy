/**
 Every interleaving of the flusher's critical sections, its timer and its flush goroutines.
 */
module FlusherRuns {
  import opened Flusher

  /** The accumulator, the timer callbacks that have fired and not yet run, the batches handed to
      flush goroutines, the notices given and the channels of all accepted entries. */
  datatype State = State(
    acc: Accumulator,
    callbacks: nat,
    batches: seq<seq<Entry>>,
    notices: seq<Notice>,
    accepted: seq<nat>)

  datatype Event =
    | Flush(entry: Entry)
    | TimerFires
    | OnTimer
    | Drain
    | FlushAndNotify(batch: nat, fence: FenceCheck, last: Outcome)

  const INITIAL := State(Accumulator([], Unset), 0, [], [], [])

  function Hand(batches: seq<seq<Entry>>, batch: seq<Entry>): seq<seq<Entry>> {
    if batch == [] then batches else batches + [batch]
  }

  /** A new entry has a channel of its own. A batch gets the notices FlushAndNotify promises. */
  function Step(st: State, ev: Event, maxBatch: nat): State {
    match ev
    case Flush(e) =>
      if e.id in st.accepted then st
      else
        var (acc, batch) := Accept(st.acc, e, maxBatch);
        st.(acc := acc, batches := Hand(st.batches, batch), accepted := st.accepted + [e.id])
    case TimerFires =>
      if st.acc.timer.Armed? then st.(acc := st.acc.(timer := Idle), callbacks := st.callbacks + 1) else st
    case OnTimer =>
      if st.callbacks == 0 then st
      else st.(acc := st.acc.(events := []), callbacks := st.callbacks - 1, batches := Hand(st.batches, st.acc.events))
    case Drain =>
      st.(acc := Accumulator([], StopTimer(st.acc.timer)), batches := Hand(st.batches, st.acc.events))
    case FlushAndNotify(i, fence, last) =>
      if i < |st.batches| then
        var batch := st.batches[i];
        st.(batches := st.batches[..i] + st.batches[i + 1..],
            notices := st.notices
                       + (Noticed(Excluded(batch, fence), if fence.CheckFails? then Rejected else FenceLost)
                          + Noticed(Admitted(batch, fence), last)))
      else st
  }

  function Reach(events: seq<Event>, maxBatch: nat): State {
    if events == [] then INITIAL else Step(Reach(events[..|events| - 1], maxBatch), events[|events| - 1], maxBatch)
  }

  // ---- Conservation ----------------------------------------------------------------------------

  /** How often a channel occurs among waiting entries, in batches and among notices. */
  function Waiting(s: seq<Entry>, id: nat): nat {
    if s == [] then 0 else Waiting(s[..|s| - 1], id) + (if s[|s| - 1].id == id then 1 else 0)
  }

  function InFlight(batches: seq<seq<Entry>>, id: nat): nat {
    if batches == [] then 0 else InFlight(batches[..|batches| - 1], id) + Waiting(batches[|batches| - 1], id)
  }

  function Told(ns: seq<Notice>, id: nat): nat {
    if ns == [] then 0 else Told(ns[..|ns| - 1], id) + (if ns[|ns| - 1].id == id then 1 else 0)
  }

  lemma {:induction false} ToldConcat(a: seq<Notice>, b: seq<Notice>, id: nat)
    ensures Told(a + b, id) == Told(a, id) + Told(b, id)
  {
    if b == [] {
      assert a + b == a;
    } else {
      var n := |b| - 1;
      ToldConcat(a, b[..n], id);
      assert (a + b)[..|a + b| - 1] == a + b[..n];
    }
  }

  lemma {:induction false} ToldNoticed(s: seq<Entry>, outcome: Outcome, id: nat)
    ensures Told(Noticed(s, outcome), id) == Waiting(s, id)
  {
    if s != [] {
      var n := |s| - 1;
      ToldNoticed(s[..n], outcome, id);
      assert Noticed(s, outcome)[..n] == Noticed(s[..n], outcome);
    }
  }

  lemma {:induction false} WaitingAppend(s: seq<Entry>, e: Entry, id: nat)
    ensures Waiting(s + [e], id) == Waiting(s, id) + (if e.id == id then 1 else 0)
  {
    assert (s + [e])[..|s|] == s;
  }

  lemma {:induction false} WaitingSelect(s: seq<Entry>, ok: set<string>, id: nat)
    ensures Waiting(Select(s, ok, true), id) + Waiting(Select(s, ok, false), id) == Waiting(s, id)
  {
    if s != [] {
      var n := |s| - 1;
      WaitingSelect(s[..n], ok, id);
      var pass := Passes(ok, s[n]);
      WaitingAppend(Select(s[..n], ok, pass), s[n], id);
      assert Select(s, ok, !pass) == Select(s[..n], ok, !pass);
    }
  }

  /** A flushed batch gives each of its channels one notice. */
  lemma {:induction false} OneNoticeEach(batch: seq<Entry>, fence: FenceCheck, first: Outcome, last: Outcome, id: nat)
    ensures Told(Noticed(Excluded(batch, fence), first) + Noticed(Admitted(batch, fence), last), id) == Waiting(batch, id)
  {
    ToldConcat(Noticed(Excluded(batch, fence), first), Noticed(Admitted(batch, fence), last), id);
    ToldNoticed(Excluded(batch, fence), first, id);
    ToldNoticed(Admitted(batch, fence), last, id);
    if NeedsFencing(batch) && fence.Leases? { WaitingSelect(batch, Confirmed(fence.held, batch), id); }
  }

  lemma {:induction false} TakeBatch(batches: seq<seq<Entry>>, i: nat, id: nat)
    requires i < |batches|
    ensures InFlight(batches, id) == Waiting(batches[i], id) + InFlight(batches[..i] + batches[i + 1..], id)
  {
    var n := |batches| - 1;
    var rest := batches[..i] + batches[i + 1..];
    if i == n {
      assert rest == batches[..n];
    } else {
      TakeBatch(batches[..n], i, id);
      assert rest[..|rest| - 1] == batches[..n][..i] + batches[..n][i + 1..];
    }
  }

  lemma {:induction false} HandCounts(batches: seq<seq<Entry>>, batch: seq<Entry>, id: nat)
    ensures InFlight(Hand(batches, batch), id) == InFlight(batches, id) + Waiting(batch, id)
  {
    assert batch != [] ==> (batches + [batch])[..|batches|] == batches;
  }

  /** A channel that was accepted is in one place, any other in none. */
  predicate Conserved(st: State, id: nat) {
    Waiting(st.acc.events, id) + InFlight(st.batches, id) + Told(st.notices, id) == if id in st.accepted then 1 else 0
  }

  lemma {:induction false} AcceptConserves(st: State, e: Entry, maxBatch: nat, id: nat)
    requires Conserved(st, id)
    ensures Conserved(Step(st, Flush(e), maxBatch), id)
  {
    if e.id !in st.accepted {
      var (acc, batch) := Accept(st.acc, e, maxBatch);
      AcceptCounts(st.acc, e, maxBatch, id);
      HandCounts(st.batches, batch, id);
    }
  }

  /** An accepted entry is in the accumulator or in the batch it filled. */
  lemma {:induction false} AcceptCounts(acc: Accumulator, e: Entry, maxBatch: nat, id: nat)
    ensures Waiting(Accept(acc, e, maxBatch).0.events, id) + Waiting(Accept(acc, e, maxBatch).1, id)
         == Waiting(acc.events, id) + (if e.id == id then 1 else 0)
  {
    WaitingAppend(acc.events, e, id);
  }

  lemma {:induction false} NotifyConserves(st: State, i: nat, fence: FenceCheck, last: Outcome, maxBatch: nat, id: nat)
    requires Conserved(st, id)
    ensures Conserved(Step(st, FlushAndNotify(i, fence, last), maxBatch), id)
  {
    if i < |st.batches| {
      var batch, first := st.batches[i], if fence.CheckFails? then Rejected else FenceLost;
      var told := Noticed(Excluded(batch, fence), first) + Noticed(Admitted(batch, fence), last);
      TakeBatch(st.batches, i, id);
      OneNoticeEach(batch, fence, first, last, id);
      ToldConcat(st.notices, told, id);
      assert Step(st, FlushAndNotify(i, fence, last), maxBatch).notices == st.notices + told;
    }
  }

  lemma {:induction false} StepConserves(st: State, ev: Event, maxBatch: nat, id: nat)
    requires Conserved(st, id)
    ensures Conserved(Step(st, ev, maxBatch), id)
  {
    match ev
    case Flush(e) => AcceptConserves(st, e, maxBatch, id);
    case TimerFires =>
    case OnTimer => HandCounts(st.batches, st.acc.events, id);
    case Drain => HandCounts(st.batches, st.acc.events, id);
    case FlushAndNotify(i, fence, last) => NotifyConserves(st, i, fence, last, maxBatch, id);
  }

  /** The accumulator is never full between critical sections and never left without a wake-up. */
  predicate WellTimed(st: State, maxBatch: nat) {
    |st.acc.events| < maxBatch && (st.acc.events != [] ==> st.acc.timer.Armed? || st.callbacks > 0)
  }

  lemma {:induction false} StepKeepsTime(st: State, ev: Event, maxBatch: nat)
    requires WellTimed(st, maxBatch)
    ensures WellTimed(Step(st, ev, maxBatch), maxBatch)
  {
  }

  lemma {:induction false} ReachKeepsInv(events: seq<Event>, maxBatch: nat, id: nat)
    requires maxBatch > 0
    ensures Conserved(Reach(events, maxBatch), id) && WellTimed(Reach(events, maxBatch), maxBatch)
  {
    if events != [] {
      ReachKeepsInv(events[..|events| - 1], maxBatch, id);
      StepConserves(Reach(events[..|events| - 1], maxBatch), events[|events| - 1], maxBatch, id);
      StepKeepsTime(Reach(events[..|events| - 1], maxBatch), events[|events| - 1], maxBatch);
    }
  }

  // ---- The guarantees --------------------------------------------------------------------------

  /** Over every run, an accepted entry is in exactly one place: waiting in the accumulator, in one
      batch in flight, or told its one outcome. A channel that was not accepted is in none. */
  lemma {:induction false} ExactlyOnePlace(events: seq<Event>, maxBatch: nat, id: nat)
    requires maxBatch > 0
    ensures var st := Reach(events, maxBatch);
            Waiting(st.acc.events, id) + InFlight(st.batches, id) + Told(st.notices, id) == if id in st.accepted then 1 else 0
  {
    ReachKeepsInv(events, maxBatch, id);
  }

  /** Between critical sections the accumulator holds fewer than a full batch, and while it holds
      anything a timer is armed or a callback is on its way. */
  lemma {:induction false} NeverStranded(events: seq<Event>, maxBatch: nat)
    requires maxBatch > 0
    ensures var st := Reach(events, maxBatch);
            |st.acc.events| < maxBatch && (st.acc.events != [] ==> st.acc.timer.Armed? || st.callbacks > 0)
  {
    ReachKeepsInv(events, maxBatch, 0);
  }

  /** The wake-up empties the accumulator into a batch without losing an entry. */
  function WakeUp(st: State): seq<Event> {
    if st.callbacks > 0 then [OnTimer] else [TimerFires, OnTimer]
  }

  lemma {:induction false} WakeUpDrains(events: seq<Event>, maxBatch: nat)
    requires maxBatch > 0 && Reach(events, maxBatch).acc.events != []
    ensures var st := Reach(events, maxBatch);
            var st' := Reach(events + WakeUp(st), maxBatch);
            st'.acc.events == [] && st'.batches == st.batches + [st.acc.events] && st'.accepted == st.accepted
  {
    ReachKeepsInv(events, maxBatch, 0);
    var st := Reach(events, maxBatch);
    if st.callbacks > 0 {
      ReachOn(events, OnTimer, maxBatch);
    } else {
      ReachOn(events, TimerFires, maxBatch);
      ReachOn(events + [TimerFires], OnTimer, maxBatch);
      assert events + [TimerFires, OnTimer] == events + [TimerFires] + [OnTimer];
    }
  }

  lemma {:induction false} ReachOn(events: seq<Event>, ev: Event, maxBatch: nat)
    ensures Reach(events + [ev], maxBatch) == Step(Reach(events, maxBatch), ev, maxBatch)
  {
    assert (events + [ev])[..|events|] == events;
  }

  /** Once every batch has been flushed and nothing waits, every accepted entry has had exactly one
      outcome. */
  lemma {:induction false} AllToldOnce(events: seq<Event>, maxBatch: nat, id: nat)
    requires maxBatch > 0
    requires var st := Reach(events, maxBatch); st.acc.events == [] && st.batches == [] && id in st.accepted
    ensures Told(Reach(events, maxBatch).notices, id) == 1
  {
    ExactlyOnePlace(events, maxBatch, id);
  }
}
