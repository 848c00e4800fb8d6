/**
 A sequential saga: forward steps in order, and on a failure the compensators of the completed steps
 in reverse. Forwards and compensators are any functions of the outside world that may fail.
 */
module Saga {

  /** The world afterwards, and whether the call succeeded. */
  type Action<!S> = S -> (S, bool)

  datatype Compensator<!S> = Missing | Undo(run: Action<S>)

  datatype SagaStep<!S> = SagaStep(description: string, forward: Action<S>, compensate: Compensator<S>)

  datatype Published = Published(
    currentStep: string,
    failedStep: string,
    status: string,
    compensated: seq<string>,
    unwindFailed: seq<string>)

  /** What ran: forwards by index, then compensators by index with their success. */
  datatype Did = Forward(index: nat) | Compensated(index: nat, ok: bool)

  datatype SagaResult = SagaResult(completed: seq<string>, unwound: seq<string>, unwindFailed: seq<string>)

  // ---- Reference -------------------------------------------------------------------------------

  function Names<S>(steps: seq<SagaStep<S>>): (names: seq<string>)
    ensures |names| == |steps|
  {
    seq(|steps|, i requires 0 <= i < |steps| => steps[i].description)
  }

  /** The world after the first `n` forwards. */
  function After<S>(steps: seq<SagaStep<S>>, s: S, n: nat): S
    requires n <= |steps|
  {
    if n == 0 then s else steps[n - 1].forward(After(steps, s, n - 1)).0
  }

  ghost predicate Succeeds<S>(steps: seq<SagaStep<S>>, s: S, i: nat)
    requires i < |steps|
  {
    steps[i].forward(After(steps, s, i)).1
  }

  /** Compensating the steps below `n`, last first: the world afterwards and what ran. */
  function Unwind<S>(steps: seq<SagaStep<S>>, s: S, n: nat): (S, seq<Did>)
    requires n <= |steps|
  {
    if n == 0 then (s, [])
    else match steps[n - 1].compensate
      case Missing => Unwind(steps, s, n - 1)
      case Undo(run) =>
        var (s', ok) := run(s);
        var (end, rest) := Unwind(steps, s', n - 1);
        (end, [Compensated(n - 1, ok)] + rest)
  }

  function Forwards(n: nat): (ds: seq<Did>)
    ensures |ds| == n
  {
    seq(n, (i: nat) => Forward(i))
  }

  /** The descriptions of the compensators that ran with this outcome, in the order they ran. */
  function Listed<S>(steps: seq<SagaStep<S>>, ds: seq<Did>, ok: bool): seq<string>
    requires forall d :: d in ds ==> d.Compensated? && d.index < |steps|
  {
    if ds == [] then []
    else
      var n := |ds| - 1;
      Listed(steps, ds[..n], ok) + (if ds[n].ok == ok then [steps[ds[n].index].description] else [])
  }

  /** The compensators that exist below `n`, last first. */
  function Compensators<S>(steps: seq<SagaStep<S>>, n: nat): seq<nat>
    requires n <= |steps|
  {
    if n == 0 then []
    else (if steps[n - 1].compensate.Undo? then [n - 1] else []) + Compensators(steps, n - 1)
  }

  function Indices(ds: seq<Did>): (at: seq<nat>)
    ensures |at| == |ds|
  {
    seq(|ds|, i requires 0 <= i < |ds| => ds[i].index)
  }

  lemma {:induction false} UnwindShape<S>(steps: seq<SagaStep<S>>, s: S, n: nat)
    requires n <= |steps|
    ensures Indices(Unwind(steps, s, n).1) == Compensators(steps, n)
    ensures forall d :: d in Unwind(steps, s, n).1 ==> d.Compensated? && d.index < n
  {
    if n > 0 {
      match steps[n - 1].compensate
      case Missing => UnwindShape(steps, s, n - 1);
      case Undo(run) =>
        UnwindShape(steps, run(s).0, n - 1);
        var rest := Unwind(steps, run(s).0, n - 1).1;
        assert Indices([Compensated(n - 1, run(s).1)] + rest) == [n - 1] + Indices(rest);
    }
  }

  lemma {:induction false} ListedAppend<S>(steps: seq<SagaStep<S>>, ds: seq<Did>, d: Did, ok: bool)
    requires forall x :: x in ds ==> x.Compensated? && x.index < |steps|
    requires d.Compensated? && d.index < |steps|
    ensures forall x :: x in ds + [d] ==> x.Compensated? && x.index < |steps|
    ensures Listed(steps, ds + [d], ok) == Listed(steps, ds, ok) + (if d.ok == ok then [steps[d.index].description] else [])
  {
    assert (ds + [d])[..|ds|] == ds;
  }

  // ---- The run ---------------------------------------------------------------------------------

  /** The compensation loop: every compensator of the completed steps is attempted, last first, and a
      failed one does not stop the rest. */
  method CompensateAll<S>(steps: seq<SagaStep<S>>, s: S, n: nat)
    returns (end: S, did: seq<Did>, unwound: seq<string>, unwindFailed: seq<string>)
    requires n <= |steps|
    ensures (end, did) == Unwind(steps, s, n)
    ensures forall d :: d in did ==> d.Compensated? && d.index < |steps|
    ensures unwound == Listed(steps, did, true) && unwindFailed == Listed(steps, did, false)
  {
    end, did, unwound, unwindFailed := s, [], [], [];
    var j: nat := n;
    while j > 0
      invariant 0 <= j <= n
      invariant forall d :: d in did ==> d.Compensated? && d.index < |steps|
      invariant Unwind(steps, s, n).0 == Unwind(steps, end, j).0
      invariant Unwind(steps, s, n).1 == did + Unwind(steps, end, j).1
      invariant unwound == Listed(steps, did, true) && unwindFailed == Listed(steps, did, false)
    {
      j := j - 1;
      var cs := steps[j];
      if cs.compensate.Undo? {
        var (next, ok) := cs.compensate.run(end);
        ghost var rest := Unwind(steps, next, j).1;
        assert did + ([Compensated(j, ok)] + rest) == did + [Compensated(j, ok)] + rest;
        ListedAppend(steps, did, Compensated(j, ok), true);
        ListedAppend(steps, did, Compensated(j, ok), false);
        end, did := next, did + [Compensated(j, ok)];
        if ok {
          unwound := unwound + [cs.description];
        } else {
          unwindFailed := unwindFailed + [cs.description];
        }
      }
    }
    assert did + [] == did;
  }

  /** A saga that fails at step k has performed the forwards 0 to k and then the compensators of the
      steps below k; one that does not fail has performed every forward and no compensator. The
      published state is the returned result. */
  method RunWithResult<S>(steps: seq<SagaStep<S>>, s: S, q: Published)
    returns (r: SagaResult, failed: bool, end: S, did: seq<Did>, q': Published)
    ensures var k := |r.completed|;
            && k <= |steps| && r.completed == Names(steps[..k])
            && (forall i :: 0 <= i < k ==> Succeeds(steps, s, i))
            && (failed <==> k < |steps|)
            && (k < |steps| ==>
                  var (undone, comps) := Unwind(steps, After(steps, s, k + 1), k);
                  && !Succeeds(steps, s, k) && did == Forwards(k + 1) + comps && end == undone
                  && (forall d :: d in comps ==> d.Compensated? && d.index < |steps|)
                  && r.unwound == Listed(steps, comps, true) && r.unwindFailed == Listed(steps, comps, false)
                  && q' == Published(steps[k].description, steps[k].description, "failed", r.unwound, r.unwindFailed))
            && (k == |steps| ==>
                  && did == Forwards(k) && end == After(steps, s, k) && r.unwound == [] && r.unwindFailed == []
                  && q' == Published(if k == 0 then q.currentStep else steps[k - 1].description, "", "done", [], []))
  {
    r, end, did, q' := SagaResult([], [], []), s, [], q;
    for i := 0 to |steps|
      invariant r == SagaResult(Names(steps[..i]), [], []) && did == Forwards(i) && end == After(steps, s, i)
      invariant forall j :: 0 <= j < i ==> Succeeds(steps, s, j)
      invariant q' == q.(currentStep := if i == 0 then q.currentStep else steps[i - 1].description)
    {
      q' := q'.(currentStep := steps[i].description);
      var (next, ok) := steps[i].forward(end);
      did := did + [Forward(i)];
      end := next;
      if !ok {
        var comps, unwound, unwindFailed;
        q' := q'.(status := "failed", failedStep := steps[i].description);
        end, comps, unwound, unwindFailed := CompensateAll(steps, end, i);
        did := did + comps;
        r := r.(unwound := unwound, unwindFailed := unwindFailed);
        q' := q'.(compensated := unwound, unwindFailed := unwindFailed);
        return r, true, end, did, q';
      }
      r := r.(completed := r.completed + [steps[i].description]);
      assert Names(steps[..i + 1]) == Names(steps[..i]) + [steps[i].description];
    }
    q' := q'.(status := "done", compensated := [], failedStep := "", unwindFailed := []);
    failed := false;
  }

  // ---- Rolling back ----------------------------------------------------------------------------

  /** In this run, undoing step i from the world it left succeeds and gives back the world it found;
      a step with no compensator changed nothing. */
  ghost predicate Undoes<S>(steps: seq<SagaStep<S>>, s: S, i: nat)
    requires i < |steps|
  {
    match steps[i].compensate
    case Missing => After(steps, s, i + 1) == After(steps, s, i)
    case Undo(run) => run(After(steps, s, i + 1)) == (After(steps, s, i), true)
  }

  /** If every completed step can be undone and the failing step changed nothing, the unwinding gives
      back the initial world and no compensation fails. */
  lemma {:induction false} UnwindRestores<S>(steps: seq<SagaStep<S>>, s: S, n: nat)
    requires n <= |steps| && (forall i :: 0 <= i < n ==> Undoes(steps, s, i))
    ensures Unwind(steps, After(steps, s, n), n).0 == s
    ensures forall d :: d in Unwind(steps, After(steps, s, n), n).1 ==> d.Compensated? && d.ok
  {
    if n > 0 {
      assert Undoes(steps, s, n - 1);
      UnwindRestores(steps, s, n - 1);
    }
  }

  /** So a saga that fails at k, with a failing step that changed nothing and completed steps that can
      be undone, ends in the world it began in. */
  lemma {:induction false} FailedSagaRestores<S>(steps: seq<SagaStep<S>>, s: S, k: nat)
    requires k < |steps| && After(steps, s, k + 1) == After(steps, s, k)
    requires forall i :: 0 <= i < k ==> Undoes(steps, s, i)
    ensures Unwind(steps, After(steps, s, k + 1), k).0 == s
  {
    UnwindRestores(steps, s, k);
  }

  /** The descriptions of these steps. */
  function Described<S>(steps: seq<SagaStep<S>>, at: seq<nat>): (names: seq<string>)
    requires forall i :: 0 <= i < |at| ==> at[i] < |steps|
    ensures |names| == |at|
  {
    seq(|at|, i requires 0 <= i < |at| => steps[at[i]].description)
  }

  lemma {:induction false} ListsCount<S>(steps: seq<SagaStep<S>>, ds: seq<Did>)
    requires forall d :: d in ds ==> d.Compensated? && d.index < |steps|
    ensures forall i :: 0 <= i < |Indices(ds)| ==> Indices(ds)[i] < |steps|
    ensures multiset(Listed(steps, ds, true)) + multiset(Listed(steps, ds, false))
         == multiset(Described(steps, Indices(ds)))
  {
    forall i | 0 <= i < |Indices(ds)| ensures Indices(ds)[i] < |steps| { assert ds[i] in ds; }
    if ds != [] {
      var n := |ds| - 1;
      assert ds[n] in ds;
      ListsCount(steps, ds[..n]);
      assert Described(steps, Indices(ds)) == Described(steps, Indices(ds[..n])) + [steps[ds[n].index].description];
    }
  }

  lemma {:induction false} CompensatorsBelow<S>(steps: seq<SagaStep<S>>, n: nat)
    requires n <= |steps|
    ensures forall i :: 0 <= i < |Compensators(steps, n)| ==> Compensators(steps, n)[i] < n
  {
    if n > 0 { CompensatorsBelow(steps, n - 1); }
  }

  /** The two lists of a saga that fails at k partition the compensators of the steps below k: together
      they hold each description as often as a step with a compensator has it. */
  lemma {:induction false} ListsPartition<S>(steps: seq<SagaStep<S>>, s: S, k: nat)
    requires k <= |steps|
    ensures forall d :: d in Unwind(steps, s, k).1 ==> d.Compensated? && d.index < |steps|
    ensures forall i :: 0 <= i < |Compensators(steps, k)| ==> Compensators(steps, k)[i] < |steps|
    ensures var ds := Unwind(steps, s, k).1;
            multiset(Listed(steps, ds, true)) + multiset(Listed(steps, ds, false)) ==
            multiset(Described(steps, Compensators(steps, k)))
  {
    UnwindShape(steps, s, k);
    CompensatorsBelow(steps, k);
    ListsCount(steps, Unwind(steps, s, k).1);
  }

  // ---- Which compensators fail -----------------------------------------------------------------

  /** The world after running these compensators in turn. */
  function Undone<S>(steps: seq<SagaStep<S>>, s: S, at: seq<nat>): S
    requires forall i :: 0 <= i < |at| ==> at[i] < |steps| && steps[at[i]].compensate.Undo?
  {
    if at == [] then s
    else steps[at[|at| - 1]].compensate.run(Undone(steps, s, at[..|at| - 1])).0
  }

  lemma {:induction false} UndoneFirst<S>(steps: seq<SagaStep<S>>, s: S, at: seq<nat>)
    requires at != [] && forall i :: 0 <= i < |at| ==> at[i] < |steps| && steps[at[i]].compensate.Undo?
    ensures Undone(steps, s, at) == Undone(steps, steps[at[0]].compensate.run(s).0, at[1..])
  {
    var n := |at| - 1;
    if n > 0 {
      UndoneFirst(steps, s, at[..n]);
      assert at[1..][..n - 1] == at[..n][1..];
    } else {
      assert at[..0] == [] && at[1..] == [];
    }
  }

  /** Exactly the steps below `n` with a compensator, last first. */
  lemma {:induction false} CompensatorsExact<S>(steps: seq<SagaStep<S>>, n: nat)
    requires n <= |steps|
    ensures forall i: nat :: i in Compensators(steps, n) <==> i < n && steps[i].compensate.Undo?
    ensures forall i, j :: 0 <= i < j < |Compensators(steps, n)| ==> Compensators(steps, n)[i] > Compensators(steps, n)[j]
    ensures forall i :: 0 <= i < |Compensators(steps, n)| ==>
              Compensators(steps, n)[i] < n && steps[Compensators(steps, n)[i]].compensate.Undo?
  {
    if n > 0 {
      CompensatorsExact(steps, n - 1);
      var rest := Compensators(steps, n - 1);
      var cs := Compensators(steps, n);
      assert forall i :: 0 <= i < |rest| ==> rest[i] < n - 1;
      assert steps[n - 1].compensate.Undo? ==> cs[0] == n - 1 && cs[1..] == rest;
    }
  }

  /** These steps have compensators. */
  predicate Undoable<S>(steps: seq<SagaStep<S>>, at: seq<nat>) {
    forall i :: 0 <= i < |at| ==> at[i] < |steps| && steps[at[i]].compensate.Undo?
  }

  /** Running these compensators in turn, each in the world the one before it left. */
  function Ran<S>(steps: seq<SagaStep<S>>, s: S, at: seq<nat>): seq<Did>
    requires Undoable(steps, at)
  {
    if at == [] then []
    else
      var (s', ok) := steps[at[0]].compensate.run(s);
      [Compensated(at[0], ok)] + Ran(steps, s', at[1..])
  }

  lemma {:induction false} CompensatorsUndoable<S>(steps: seq<SagaStep<S>>, n: nat)
    requires n <= |steps|
    ensures Undoable(steps, Compensators(steps, n))
  {
    CompensatorsExact(steps, n);
  }

  lemma {:induction false} UnwindRuns<S>(steps: seq<SagaStep<S>>, s: S, n: nat)
    requires n <= |steps|
    ensures Undoable(steps, Compensators(steps, n))
    ensures Unwind(steps, s, n).1 == Ran(steps, s, Compensators(steps, n))
  {
    CompensatorsUndoable(steps, n);
    if n > 0 {
      var cs, rest := Compensators(steps, n), Compensators(steps, n - 1);
      match steps[n - 1].compensate
      case Missing =>
        assert cs == rest;
        UnwindRuns(steps, s, n - 1);
      case Undo(run) =>
        assert cs[0] == n - 1 && cs[1..] == rest;
        UnwindRuns(steps, run(s).0, n - 1);
    }
  }

  lemma {:induction false} RanAt<S>(steps: seq<SagaStep<S>>, s: S, at: seq<nat>, j: nat)
    requires Undoable(steps, at) && j < |at|
    ensures |Ran(steps, s, at)| == |at|
    ensures Ran(steps, s, at)[j] == Compensated(at[j], steps[at[j]].compensate.run(Undone(steps, s, at[..j])).1)
  {
    if j > 0 {
      RanAt(steps, steps[at[0]].compensate.run(s).0, at[1..], j - 1);
      UndoneFirst(steps, s, at[..j]);
      assert at[..j][1..] == at[1..][..j - 1];
    } else {
      assert at[..0] == [];
      if |at| > 1 { RanAt(steps, steps[at[0]].compensate.run(s).0, at[1..], 0); }
    }
  }

  /** The j-th compensator to run finds the world the ones before it left, and is marked as failed exactly
      if it returned false. */
  lemma {:induction false} CompensatorOutcome<S>(steps: seq<SagaStep<S>>, s: S, n: nat, j: nat)
    requires n <= |steps| && j < |Compensators(steps, n)|
    ensures Undoable(steps, Compensators(steps, n)) && |Unwind(steps, s, n).1| == |Compensators(steps, n)|
    ensures var cs := Compensators(steps, n);
            Unwind(steps, s, n).1[j] ==
            Compensated(cs[j], steps[cs[j]].compensate.run(Undone(steps, s, cs[..j])).1)
  {
    UnwindRuns(steps, s, n);
    RanAt(steps, s, Compensators(steps, n), j);
  }

  /** This compensator, of a step of that description, ended so. */
  predicate EndedSo<S>(steps: seq<SagaStep<S>>, d: Did, ok: bool, name: string) {
    d.Compensated? && d.index < |steps| && d.ok == ok && steps[d.index].description == name
  }

  lemma {:induction false} CountOneMore<S>(steps: seq<SagaStep<S>>, ds: seq<Did>, ok: bool, name: string,
                                           before: set<int>, all: set<int>)
    requires ds != []
    requires forall j :: j in before <==> 0 <= j < |ds| - 1 && EndedSo(steps, ds[j], ok, name)
    requires forall j :: j in all <==> 0 <= j < |ds| && EndedSo(steps, ds[j], ok, name)
    ensures |all| == |before| + (if EndedSo(steps, ds[|ds| - 1], ok, name) then 1 else 0)
  {
    var n := |ds| - 1;
    var last := if EndedSo(steps, ds[n], ok, name) then {n} else {};
    forall j ensures j in all <==> j in before + last {
      if 0 <= j < n { assert j in all <==> EndedSo(steps, ds[j], ok, name); }
    }
    assert all == before + last;
  }

  /** A description is listed as often as a compensator of that description ended so. */
  lemma {:induction false} ListedCounts<S>(steps: seq<SagaStep<S>>, ds: seq<Did>, ok: bool, name: string)
    requires forall d :: d in ds ==> d.Compensated? && d.index < |steps|
    ensures multiset(Listed(steps, ds, ok))[name] == |set j | 0 <= j < |ds| && EndedSo(steps, ds[j], ok, name)|
  {
    if ds != [] {
      var n := |ds| - 1;
      assert ds[n] in ds;
      ListedCounts(steps, ds[..n], ok, name);
      var before := set j | 0 <= j < n && EndedSo(steps, ds[..n][j], ok, name);
      var all := set j | 0 <= j < |ds| && EndedSo(steps, ds[j], ok, name);
      CountOneMore(steps, ds, ok, name, before, all);
    }
  }
}
