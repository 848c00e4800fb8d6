/**
 Any number of creates of the same tenant at once: same id, same name, same creator, same org by
 name. They interleave at every read, insert and commit, with nothing else acting.
 */
module ConcurrentCreates {
  import opened Options

  datatype Outcome = Created | Replayed | Failed

  datatype Phase =
    | FindOrg
    | InsertOrg
    | RefindOrg
    | ReadTenant
    | ReadName
    | Insert
    | Commit
    | SomethingAppeared
    | Replay
    | Finished(outcome: Outcome)

  /** One create: where it is, the org it resolved, and its pass. */
  datatype Create = Create(phase: Phase, org: string, pass: nat)

  /** The named org, the committed tenant row (its org) and who committed it, and the create whose
      insert is not committed yet. */
  datatype State = State(
    org: Option<string>,
    row: Option<string>,
    winner: Option<nat>,
    holder: Option<nat>,
    creates: seq<Create>)

  function Put(st: State, p: nat, c: Create): State
    requires p < |st.creates|
  {
    st.(creates := st.creates[p := c])
  }

  /** A pass that lost a race: the second pass starts over, a third does not happen. */
  function Again(c: Create): Create {
    if c.pass == 0 then c.(phase := ReadTenant, pass := 1) else c.(phase := Finished(Failed))
  }

  /** The next statement of create `p`. `generated` is the org id it would generate. */
  function Step(st: State, p: nat, generated: string): State {
    if p >= |st.creates| then st
    else
      var c := st.creates[p];
      match c.phase
      case FindOrg =>
        Put(st, p, if st.org.Some? then c.(phase := ReadTenant, org := st.org.value) else c.(phase := InsertOrg))
      case InsertOrg =>
        Put(st, p, c.(phase := RefindOrg)).(org := if st.org.Some? then st.org else Some(generated))
      case RefindOrg =>
        Put(st, p, if st.org.Some? then c.(phase := ReadTenant, org := st.org.value) else c.(phase := Finished(Failed)))
      case ReadTenant => Put(st, p, c.(phase := if st.row.Some? then Replay else ReadName))
      case ReadName => Put(st, p, if st.row.Some? then Again(c) else c.(phase := Insert))
      case Insert =>
        if st.holder.Some? then st
        else if st.row.Some? then Put(st, p, c.(phase := SomethingAppeared))
        else Put(st, p, c.(phase := Commit)).(holder := Some(p))
      case SomethingAppeared => Put(st, p, if st.row.Some? then Again(c) else c.(phase := Finished(Failed)))
      case Commit => Put(st, p, c.(phase := Finished(Created))).(row := Some(c.org), winner := Some(p), holder := None)
      case Replay => Put(st, p, c.(phase := Finished(if st.row == Some(c.org) then Replayed else Failed)))
      case Finished(_) => st
  }

  datatype Move = Move(p: nat, generated: string)

  /** `n` creates start at once over an org that may or may not exist and no tenant row. */
  function Start(org: Option<string>, n: nat): State {
    State(org, None, None, None, seq(n, _ => Create(FindOrg, "", 0)))
  }

  function Reach(org: Option<string>, n: nat, moves: seq<Move>): State {
    if moves == [] then Start(org, n)
    else
      var m := moves[|moves| - 1];
      Step(Reach(org, n, moves[..|moves| - 1]), m.p, m.generated)
  }

  // ---- What every state keeps ------------------------------------------------------------------

  predicate Resolved(phase: Phase) {
    !phase.FindOrg? && !phase.InsertOrg? && !phase.RefindOrg?
  }

  predicate Valid(st: State, p: nat, c: Create) {
    && (c.phase.RefindOrg? ==> st.org.Some?)
    && (Resolved(c.phase) ==> st.org == Some(c.org))
    && (c.phase.Replay? || c.phase.SomethingAppeared? ==> st.row.Some?)
    && c.pass <= 1
    && (c.pass == 1 ==> st.row.Some? && (c.phase.ReadTenant? || c.phase.Replay? || c.phase.Finished?))
    && (c.phase.Commit? <==> st.holder == Some(p))
    && (c.phase.Finished? ==> c.phase.outcome != Failed && st.row.Some?)
  }

  predicate Won(st: State, p: nat) {
    st.row.Some? && st.winner == Some(p)
  }

  ghost predicate Inv(st: State) {
    && (forall p :: 0 <= p < |st.creates| ==>
          Valid(st, p, st.creates[p]) && (st.creates[p].phase == Finished(Created) <==> Won(st, p)))
    && (st.row.Some? ==> st.row == st.org && st.holder.None? && st.winner.Some? && st.winner.value < |st.creates|)
    && (st.holder.Some? ==> st.holder.value < |st.creates|)
  }

  lemma {:induction false} StepKeepsInv(st: State, p: nat, generated: string)
    requires Inv(st)
    ensures Inv(Step(st, p, generated))
  {
  }

  lemma {:induction false} ReachKeepsInv(org: Option<string>, n: nat, moves: seq<Move>)
    ensures Inv(Reach(org, n, moves)) && |Reach(org, n, moves).creates| == n
  {
    if moves != [] {
      var m := moves[|moves| - 1];
      ReachKeepsInv(org, n, moves[..|moves| - 1]);
      StepKeepsInv(Reach(org, n, moves[..|moves| - 1]), m.p, m.generated);
    }
  }

  // ---- The guarantees --------------------------------------------------------------------------

  /** No create ever fails, and none makes a third pass, whatever the interleaving. */
  lemma {:induction false} EveryCreateSucceeds(org: Option<string>, n: nat, moves: seq<Move>, p: nat)
    requires p < |Reach(org, n, moves).creates|
    ensures var c := Reach(org, n, moves).creates[p];
            c.phase != Finished(Failed) && c.pass <= 1
  {
    ReachKeepsInv(org, n, moves);
  }

  /** When all have finished, exactly one says created and all others say replayed. */
  lemma {:induction false} ExactlyOneCreated(org: Option<string>, n: nat, moves: seq<Move>) returns (winner: nat)
    requires n > 0
    requires forall c :: c in Reach(org, n, moves).creates ==> c.phase.Finished?
    ensures winner < n == |Reach(org, n, moves).creates|
    ensures forall p :: 0 <= p < n ==>
              Reach(org, n, moves).creates[p].phase == Finished(if p == winner then Created else Replayed)
  {
    ReachKeepsInv(org, n, moves);
    var st := Reach(org, n, moves);
    assert st.creates[0] in st.creates && Valid(st, 0, st.creates[0]);
    winner := st.winner.value;
    forall p | 0 <= p < n ensures st.creates[p].phase == Finished(if p == winner then Created else Replayed) {
      assert st.creates[p] in st.creates && Valid(st, p, st.creates[p]);
    }
  }

  /** How far a create is from its end. */
  function Rank(c: Create): nat {
    match c.phase
    case FindOrg => 11
    case InsertOrg => 10
    case RefindOrg => 9
    case ReadTenant => if c.pass == 0 then 8 else 3
    case ReadName => 7
    case Insert => 6
    case Commit => 5
    case SomethingAppeared => 4
    case Replay => 2
    case Finished(_) => 0
  }

  /** Every statement brings its create nearer the end, except an insert that waits; and then the
      create it waits for can go on. So every fair interleaving finishes, each create within 11
      statements of its own. */
  lemma {:induction false} EveryStatementCounts(org: Option<string>, n: nat, moves: seq<Move>, p: nat,
                                                generated: string)
    requires p < |Reach(org, n, moves).creates| && !Reach(org, n, moves).creates[p].phase.Finished?
    ensures var st := Reach(org, n, moves);
            || Rank(Step(st, p, generated).creates[p]) < Rank(st.creates[p])
            || (&& st.creates[p].phase == Insert && st.holder.Some? && st.holder.value < |st.creates|
                && var h := st.holder.value;
                   Rank(Step(st, h, generated).creates[h]) < Rank(st.creates[h]) && Step(st, h, generated).holder.None?)
  {
    ReachKeepsInv(org, n, moves);
    var st := Reach(org, n, moves);
    assert Valid(st, p, st.creates[p]);
    if st.holder.Some? { assert Valid(st, st.holder.value, st.creates[st.holder.value]); }
  }
}
