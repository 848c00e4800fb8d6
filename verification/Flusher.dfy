/**
 The adaptive flusher in batch mode: a lock-protected accumulator that four paths drain (a full
 batch, the timer callback, Run and Shutdown), batches in flight, and one outcome per entry on its
 completion channel. Every critical section is one step; between them anything may interleave.
 */
module Flusher {
  import opened EventTable

  datatype Claim = Claim(worker: string, generation: nat)

  /** One accepted event. `id` is the identity of its completion channel; a blank worker asks for no
      fencing. */
  datatype Entry = Entry(id: nat, workflow: string, claim: Claim, step: nat, row: Row)

  datatype Outcome = Recorded | FenceLost | Rejected

  /** A value sent on the channel `id`, or its closing. */
  datatype Notice = Notice(id: nat, outcome: Outcome)

  datatype Timer = Unset | Idle | Armed

  // ---- The accumulator -------------------------------------------------------------------------

  datatype Accumulator = Accumulator(events: seq<Entry>, timer: Timer)

  function StopTimer(t: Timer): Timer {
    if t.Unset? then Unset else Idle
  }

  /** Append; arm the timer for the first entry; a full accumulator leaves as a batch. */
  function Accept(acc: Accumulator, e: Entry, maxBatch: nat): (Accumulator, seq<Entry>) {
    var events := acc.events + [e];
    var timer := if |events| == 1 then Armed else acc.timer;
    if |events| >= maxBatch then (Accumulator([], StopTimer(timer)), events)
    else (Accumulator(events, timer), [])
  }

  class AdaptiveFlusher {
    const maxBatch: nat
    var events: seq<Entry>
    var timer: Timer
    var batchMode: bool

    ghost function View(): Accumulator
      reads this
    {
      Accumulator(events, timer)
    }

    constructor (maxBatch: int)
      ensures View() == Accumulator([], Unset) && !batchMode
      ensures this.maxBatch == if maxBatch <= 0 then 200 else maxBatch
    {
      this.maxBatch := if maxBatch <= 0 then 200 else maxBatch;
      events, timer, batchMode := [], Unset, false;
    }

    /** Accepted entries follow Accept; `batch` is what this call hands to a flush goroutine. */
    method Flush(e: Entry) returns (accepted: bool, batch: seq<Entry>)
      modifies this
      ensures accepted == old(batchMode) && batchMode == old(batchMode)
      ensures accepted ==> (View(), batch) == Accept(old(View()), e, maxBatch)
      ensures accepted ==>
                && batch + events == old(events) + [e] && (batch == [] || events == [])
                && (batch != [] <==> |old(events)| + 1 >= maxBatch)
                && (old(events) == [] && batch == [] ==> timer == Armed)
      ensures !accepted ==> View() == old(View()) && batch == []
    {
      if !batchMode {
        return false, [];
      }
      events := events + [e];
      var n := |events|;
      if n == 1 {
        timer := Armed;
      }
      if n >= maxBatch {
        batch := events;
        events := [];
        if timer != Unset {
          timer := Idle;
        }
        return true, batch;
      }
      return true, [];
    }

    /** The timer callback, once it has the lock: it takes whatever is there and leaves the timer as
        it finds it. */
    method OnTimer() returns (batch: seq<Entry>)
      modifies this
      ensures View() == old(View()).(events := []) && batch == old(events) && batchMode == old(batchMode)
    {
      batch := events;
      events := [];
    }

    /** The drain of Run and of Shutdown. */
    method Drain() returns (batch: seq<Entry>)
      modifies this
      ensures View() == Accumulator([], StopTimer(old(timer))) && batch == old(events) && batchMode == old(batchMode)
    {
      batch := events;
      events := [];
      if timer != Unset {
        timer := Idle;
      }
    }
  }

  // ---- Fencing a batch -------------------------------------------------------------------------

  predicate Holds(leases: map<string, Claim>, e: Entry) {
    e.claim.worker == "" || (e.workflow in leases && leases[e.workflow] == e.claim)
  }

  /** What the fence query returns: the workflows whose lease matches some claim of the batch. */
  function Confirmed(leases: map<string, Claim>, batch: seq<Entry>): set<string> {
    set i | 0 <= i < |batch| && batch[i].claim.worker != "" && Holds(leases, batch[i]) :: batch[i].workflow
  }

  predicate Passes(ok: set<string>, e: Entry) {
    e.claim.worker == "" || e.workflow in ok
  }

  /** The entries that pass (or that do not), in batch order. */
  function Select(s: seq<Entry>, ok: set<string>, pass: bool): (r: seq<Entry>)
    ensures forall e :: e in r <==> e in s && Passes(ok, e) == pass
  {
    if s == [] then []
    else
      var n := |s| - 1;
      Select(s[..n], ok, pass) + (if Passes(ok, s[n]) == pass then [s[n]] else [])
  }

  method ConfirmClaims(batch: seq<Entry>, leases: map<string, Claim>) returns (ok: set<string>)
    ensures ok == Confirmed(leases, batch)
  {
    ok := {};
    for i := 0 to |batch|
      invariant ok == Confirmed(leases, batch[..i])
    {
      var e := batch[i];
      assert batch[..i + 1] == batch[..i] + [e];
      ConfirmedStep(leases, batch[..i], e);
      if e.claim.worker != "" && Holds(leases, e) {
        ok := ok + {e.workflow};
      }
    }
    assert batch[..|batch|] == batch;
  }

  /** The two lists are the batch in its order, split by whether the entry's workflow was confirmed. */
  method PartitionFencedBatch(batch: seq<Entry>, leases: map<string, Claim>)
    returns (held: seq<Entry>, lost: seq<Entry>)
    ensures held == Select(batch, Confirmed(leases, batch), true)
    ensures lost == Select(batch, Confirmed(leases, batch), false)
  {
    var ok := ConfirmClaims(batch, leases);
    held, lost := [], [];
    for i := 0 to |batch|
      invariant held == Select(batch[..i], ok, true) && lost == Select(batch[..i], ok, false)
    {
      assert batch[..i + 1][..i] == batch[..i];
      if Passes(ok, batch[i]) {
        held := held + [batch[i]];
      } else {
        lost := lost + [batch[i]];
      }
    }
    assert batch[..|batch|] == batch;
  }

  lemma {:induction false} ConfirmedStep(leases: map<string, Claim>, batch: seq<Entry>, e: Entry)
    ensures Confirmed(leases, batch + [e])
         == Confirmed(leases, batch) + (if e.claim.worker != "" && Holds(leases, e) then {e.workflow} else {})
  {
    var all := batch + [e];
    assert all[|batch|] == e;
    forall w | w in Confirmed(leases, batch) ensures w in Confirmed(leases, all) {
      var i :| 0 <= i < |batch| && batch[i].claim.worker != "" && Holds(leases, batch[i]) && batch[i].workflow == w;
      assert all[i] == batch[i];
    }
  }

  /** Two fenced entries of one workflow under different claims. */
  predicate Conflict(e: Entry, f: Entry) {
    e.workflow == f.workflow && e.claim.worker != "" && f.claim.worker != "" && e.claim != f.claim
  }

  /** All fenced entries of one workflow claim it alike. */
  predicate OneClaimPerWorkflow(batch: seq<Entry>) {
    forall i, j :: 0 <= i < |batch| && 0 <= j < |batch| ==> !Conflict(batch[i], batch[j])
  }

  ghost predicate FencesEachEntry(batch: seq<Entry>, leases: map<string, Claim>) {
    forall i :: 0 <= i < |batch| ==> (Passes(Confirmed(leases, batch), batch[i]) <==> Holds(leases, batch[i]))
  }

  /** The confirmation is by workflow id, so each entry is fenced by its own claim, whatever the
      leases, exactly when no workflow appears in the batch under two claims. */
  lemma {:induction false} PartitionIsExact(batch: seq<Entry>)
    ensures (forall leases :: FencesEachEntry(batch, leases)) <==> OneClaimPerWorkflow(batch)
  {
    if OneClaimPerWorkflow(batch) {
      forall leases ensures FencesEachEntry(batch, leases) { OneClaimFences(batch, leases); }
    } else {
      var i, j :| 0 <= i < |batch| && 0 <= j < |batch| && Conflict(batch[i], batch[j]);
      var leases := map[batch[i].workflow := batch[i].claim];
      assert batch[i].workflow in Confirmed(leases, batch);
      assert Passes(Confirmed(leases, batch), batch[j]) && !Holds(leases, batch[j]);
      assert !FencesEachEntry(batch, leases);
    }
  }

  lemma {:induction false} OneClaimFences(batch: seq<Entry>, leases: map<string, Claim>)
    requires OneClaimPerWorkflow(batch)
    ensures FencesEachEntry(batch, leases)
  {
    forall i | 0 <= i < |batch| ensures Passes(Confirmed(leases, batch), batch[i]) <==> Holds(leases, batch[i]) {
      if Holds(leases, batch[i]) && batch[i].claim.worker != "" {
        assert batch[i].workflow in Confirmed(leases, batch);
      }
      if batch[i].claim.worker != "" && batch[i].workflow in Confirmed(leases, batch) {
        var j :| 0 <= j < |batch| && batch[j].claim.worker != "" && Holds(leases, batch[j])
              && batch[j].workflow == batch[i].workflow;
        assert !Conflict(batch[i], batch[j]);
      }
    }
  }

  // ---- Writing a batch -------------------------------------------------------------------------

  type Key = (string, nat)

  function RowsOf(batch: seq<Entry>): seq<(Key, Row)> {
    seq(|batch|, i requires 0 <= i < |batch| => ((batch[i].workflow, batch[i].step), batch[i].row))
  }

  /** One execution of the batch statement: whether it committed, what the caller was told, and
      whether the error it was told is worth retrying. */
  datatype Attempt = Attempt(committed: bool, ok: bool, retryable: bool)

  /** Success is reported only of a commit, and a statement that is refused does not commit; a commit may
      be reported as a failure. */
  predicate Truthful(a: Attempt, table: map<Key, Row>, rows: seq<(Key, Row)>) {
    (a.ok ==> a.committed) && (a.committed ==> !Rejects(table, rows))
  }

  /** The same statement is executed until it is known to have committed or the attempts run out. The
      first failure is always retried, a later one if the error is worth it. However many of them
      committed, the table is as if the batch had been written once. */
  method WriteUntilKnown(table: map<Key, Row>, rows: seq<(Key, Row)>, attempts: seq<Attempt>)
    returns (after: map<Key, Row>, ok: bool, tries: nat)
    requires forall i :: 0 <= i < |attempts| ==> Truthful(attempts[i], table, rows)
    ensures tries <= |attempts|
    ensures ok <==> tries > 0 && attempts[tries - 1].ok
    ensures forall i :: 0 <= i < tries - 1 ==> !attempts[i].ok && (i > 0 ==> attempts[i].retryable)
    ensures !ok ==> tries == |attempts| || (tries > 1 && !attempts[tries - 1].retryable)
    ensures after == if exists i :: 0 <= i < tries && attempts[i].committed then Execute(table, rows).0 else table
  {
    after, ok, tries := table, false, 0;
    BatchIsIdempotent(table, rows);
    while tries < |attempts|
      invariant tries <= |attempts| && !ok
      invariant forall i :: 0 <= i < tries ==> !attempts[i].ok && (i > 0 ==> attempts[i].retryable)
      invariant after == if exists i :: 0 <= i < tries && attempts[i].committed then Execute(table, rows).0 else table
    {
      var a := attempts[tries];
      if a.committed {
        after := Execute(after, rows).0;
      }
      tries := tries + 1;
      if a.ok {
        return after, true, tries;
      }
      if tries > 1 && !a.retryable {
        return;
      }
    }
  }

  datatype FenceCheck = CheckFails | Leases(held: map<string, Claim>)

  function Noticed(s: seq<Entry>, outcome: Outcome): (ns: seq<Notice>)
    ensures |ns| == |s|
  {
    seq(|s|, i requires 0 <= i < |s| => Notice(s[i].id, outcome))
  }

  predicate NeedsFencing(batch: seq<Entry>) {
    exists i :: 0 <= i < |batch| && batch[i].claim.worker != ""
  }

  /** The entries of the batch that are written. */
  function Admitted(batch: seq<Entry>, fence: FenceCheck): seq<Entry> {
    if !NeedsFencing(batch) then batch
    else match fence
      case CheckFails => []
      case Leases(leases) => Select(batch, Confirmed(leases, batch), true)
  }

  function Excluded(batch: seq<Entry>, fence: FenceCheck): seq<Entry> {
    if !NeedsFencing(batch) then []
    else match fence
      case CheckFails => batch
      case Leases(leases) => Select(batch, Confirmed(leases, batch), false)
  }

  /** Some entry of the batch claims this workflow and holds its lease. */
  ghost predicate ClaimHeld(batch: seq<Entry>, held: map<string, Claim>, workflow: string) {
    exists j :: 0 <= j < |batch| && batch[j].workflow == workflow && batch[j].claim.worker != ""
             && workflow in held && held[workflow] == batch[j].claim
  }

  /** The entry may be written: nothing in the batch asks for fencing; or the check answered, and the
      entry asks for none or its workflow was confirmed. */
  ghost predicate MayWrite(batch: seq<Entry>, fence: FenceCheck, e: Entry) {
    || (forall j :: 0 <= j < |batch| ==> batch[j].claim.worker == "")
    || (fence.Leases? && (e.claim.worker == "" || ClaimHeld(batch, fence.held, e.workflow)))
  }

  lemma {:induction false} AdmittedMayWrite(batch: seq<Entry>, fence: FenceCheck, e: Entry)
    requires e in batch
    ensures e in Admitted(batch, fence) <==> MayWrite(batch, fence, e)
    ensures e in Excluded(batch, fence) <==> !MayWrite(batch, fence, e)
  {
  }

  /** The entry was written at its own workflow and step. */
  predicate Wrote(table: map<Key, Row>, after: map<Key, Row>, e: Entry) {
    (e.workflow, e.step) in after && RowAfter(table, (e.workflow, e.step), e.row, after[(e.workflow, e.step)])
  }

  lemma {:induction false} AdmittedAreWritten(batch: seq<Entry>, fence: FenceCheck, table: map<Key, Row>, e: Entry)
    requires e in batch && MayWrite(batch, fence, e) && !Rejects(table, RowsOf(Admitted(batch, fence)))
    ensures Wrote(table, Execute(table, RowsOf(Admitted(batch, fence))).0, e)
  {
    AdmittedMayWrite(batch, fence, e);
    var admitted := Admitted(batch, fence);
    var i :| 0 <= i < |admitted| && admitted[i] == e;
    assert RowsOf(admitted)[i] == ((e.workflow, e.step), e.row);
    ExecutedAt(table, RowsOf(admitted), i);
  }

  lemma {:induction false} OthersAreNot(batch: seq<Entry>, fence: FenceCheck, table: map<Key, Row>, k: Key)
    requires forall e :: e in batch && MayWrite(batch, fence, e) ==> (e.workflow, e.step) != k
    ensures Get(Execute(table, RowsOf(Admitted(batch, fence))).0, k) == Get(table, k)
  {
    var admitted := Admitted(batch, fence);
    forall i | 0 <= i < |admitted| ensures RowsOf(admitted)[i].0 != k {
      assert admitted[i] in admitted;
      AdmittedMayWrite(batch, fence, admitted[i]);
    }
    ExecutedElsewhere(table, RowsOf(admitted), k);
  }

  lemma {:induction false} NoticedEach(s: seq<Entry>, outcome: Outcome, e: Entry)
    requires e in s
    ensures Notice(e.id, outcome) in Noticed(s, outcome)
  {
    var i :| 0 <= i < |s| && s[i] == e;
    assert Noticed(s, outcome)[i] == Notice(e.id, outcome);
  }

  /** What the flush promises of each entry of the batch: its own row at its own step if success is
      reported, and its own notice; and of every other row of the table. */
  lemma {:induction false} FlushMeans(batch: seq<Entry>, fence: FenceCheck, table: map<Key, Row>,
                                      after: map<Key, Row>, last: Outcome, first: Outcome, notices: seq<Notice>)
    requires last == Recorded ==> !Rejects(table, RowsOf(Admitted(batch, fence)))
    requires last == Recorded ==> after == Execute(table, RowsOf(Admitted(batch, fence))).0
    requires after == table || after == Execute(table, RowsOf(Admitted(batch, fence))).0
    requires notices == Noticed(Excluded(batch, fence), first) + Noticed(Admitted(batch, fence), last)
    ensures last == Recorded ==> forall e :: e in batch && MayWrite(batch, fence, e) ==> Wrote(table, after, e)
    ensures forall k :: Get(after, k) != Get(table, k) ==>
              exists e :: e in batch && MayWrite(batch, fence, e) && (e.workflow, e.step) == k
    ensures forall e :: e in batch ==> Notice(e.id, if MayWrite(batch, fence, e) then last else first) in notices
  {
    if last == Recorded {
      forall e | e in batch && MayWrite(batch, fence, e) ensures Wrote(table, after, e) {
        AdmittedAreWritten(batch, fence, table, e);
      }
    }
    forall k | Get(after, k) != Get(table, k)
      ensures exists e :: e in batch && MayWrite(batch, fence, e) && (e.workflow, e.step) == k
    {
      if forall e :: e in batch && MayWrite(batch, fence, e) ==> (e.workflow, e.step) != k {
        OthersAreNot(batch, fence, table, k);
      }
    }
    forall e | e in batch ensures Notice(e.id, if MayWrite(batch, fence, e) then last else first) in notices {
      AdmittedMayWrite(batch, fence, e);
      if MayWrite(batch, fence, e) { NoticedEach(Admitted(batch, fence), last, e); }
      else { NoticedEach(Excluded(batch, fence), first, e); }
    }
  }

  method Notify(s: seq<Entry>, outcome: Outcome) returns (ns: seq<Notice>)
    ensures ns == Noticed(s, outcome)
  {
    ns := [];
    for i := 0 to |s|
      invariant ns == Noticed(s[..i], outcome)
    {
      ns := ns + [Notice(s[i].id, outcome)];
    }
    assert s[..|s|] == s;
  }

  /** Every entry gets one notice: lost fences and failed checks first, then one common outcome for
      the entries that were written, and success only if they were. */
  method FlushAndNotify(batch: seq<Entry>, fence: FenceCheck, table: map<Key, Row>, attempts: seq<Attempt>)
    returns (notices: seq<Notice>, after: map<Key, Row>, last: Outcome)
    requires forall i :: 0 <= i < |attempts| ==> Truthful(attempts[i], table, RowsOf(Admitted(batch, fence)))
    ensures notices == Noticed(Excluded(batch, fence), if fence.CheckFails? then Rejected else FenceLost)
                       + Noticed(Admitted(batch, fence), last)
    ensures last != FenceLost
    ensures last == Recorded ==> !Rejects(table, RowsOf(Admitted(batch, fence)))
    ensures last == Recorded ==> after == Execute(table, RowsOf(Admitted(batch, fence))).0
    ensures after == table || after == Execute(table, RowsOf(Admitted(batch, fence))).0
    ensures last == Recorded ==> forall e :: e in batch && MayWrite(batch, fence, e) ==> Wrote(table, after, e)
    ensures forall k :: Get(after, k) != Get(table, k) ==>
              exists e :: e in batch && MayWrite(batch, fence, e) && (e.workflow, e.step) == k
    ensures forall e :: e in batch ==>
              Notice(e.id, if MayWrite(batch, fence, e) then last
                           else if fence.CheckFails? then Rejected else FenceLost) in notices
  {
    var admitted, stop := batch, false;
    notices, after, last := [], table, Rejected;
    if exists i :: 0 <= i < |batch| && batch[i].claim.worker != "" {
      match fence {
        case CheckFails =>
          notices := Notify(batch, Rejected);
          admitted, stop := [], true;
        case Leases(leases) =>
          var lost;
          admitted, lost := PartitionFencedBatch(batch, leases);
          notices := Notify(lost, FenceLost);
          stop := admitted == [];
      }
    }
    if !stop {
      var ok, tries;
      after, ok, tries := WriteUntilKnown(table, RowsOf(admitted), attempts);
      last := if ok then Recorded else Rejected;
      var told := Notify(admitted, last);
      notices := notices + told;
    }
    FlushMeans(batch, fence, table, after, last, if fence.CheckFails? then Rejected else FenceLost, notices);
  }
}
