/**
 Waiting for a quorum of signals: each await asks for the names that have not voted, each arrival is a
 vote, and a limit on rejections can end the wait early.
 */
module Quorum {

  datatype Vote = Vote(name: string, rejected: bool)

  /** What one await returns. */
  datatype Delivery = TimedOut | HostError | Signal(vote: Vote)

  datatype Verdict = Reached | Unsatisfiable | OutOfTime | Broken | NotAsked(name: string) | TooManyRejections

  // ---- Reference -------------------------------------------------------------------------------

  /** The names without the first occurrence of one of them. */
  function Without(names: seq<string>, name: string): seq<string> {
    if names == [] then []
    else if names[0] == name then names[1..]
    else [names[0]] + Without(names[1..], name)
  }

  /** The names still to vote. */
  function ToVote(names: seq<string>, votes: seq<Vote>): seq<string> {
    if votes == [] then names else Without(ToVote(names, votes[..|votes| - 1]), votes[|votes| - 1].name)
  }

  /** Each vote was by a name still to vote. */
  predicate Entitled(names: seq<string>, votes: seq<Vote>) {
    votes == [] ||
    var n := |votes| - 1;
    Entitled(names, votes[..n]) && votes[n].name in ToVote(names, votes[..n])
  }

  /** What each vote's await asked for. */
  function Asks(names: seq<string>, votes: seq<Vote>): seq<seq<string>> {
    if votes == [] then []
    else
      var n := |votes| - 1;
      Asks(names, votes[..n]) + [ToVote(names, votes[..n])]
  }

  /** Each vote is what its await returned. */
  predicate Delivered(votes: seq<Vote>, deliver: nat -> Delivery) {
    votes == [] ||
    var n := |votes| - 1;
    Delivered(votes[..n], deliver) && deliver(n) == Signal(votes[n])
  }

  /** No vote was awaited after the time was up. */
  predicate InTime(votes: seq<Vote>, expired: nat -> bool) {
    votes == [] || (InTime(votes[..|votes| - 1], expired) && !expired(|votes| - 1))
  }

  lemma {:induction false} DeliveredAt(votes: seq<Vote>, deliver: nat -> Delivery, expired: nat -> bool, i: nat)
    requires Delivered(votes, deliver) && InTime(votes, expired) && i < |votes|
    ensures deliver(i) == Signal(votes[i]) && !expired(i)
  {
    if i < |votes| - 1 { DeliveredAt(votes[..|votes| - 1], deliver, expired, i); }
  }

  function Rejections(votes: seq<Vote>): nat {
    if votes == [] then 0
    else Rejections(votes[..|votes| - 1]) + (if votes[|votes| - 1].rejected then 1 else 0)
  }

  function Names(votes: seq<Vote>): (names: seq<string>)
    ensures |names| == |votes|
  {
    seq(|votes|, i requires 0 <= i < |votes| => votes[i].name)
  }

  lemma {:induction false} OneMoreVote(names: seq<string>, votes: seq<Vote>, vote: Vote, deliver: nat -> Delivery,
                                       expired: nat -> bool)
    requires Entitled(names, votes) && vote.name in ToVote(names, votes)
    requires Delivered(votes, deliver) && deliver(|votes|) == Signal(vote)
    requires InTime(votes, expired) && !expired(|votes|)
    ensures var more := votes + [vote];
            && Entitled(names, more) && Delivered(more, deliver) && InTime(more, expired)
            && ToVote(names, more) == Without(ToVote(names, votes), vote.name)
            && Asks(names, more) == Asks(names, votes) + [ToVote(names, votes)]
            && Rejections(more) == Rejections(votes) + (if vote.rejected then 1 else 0)
  {
    assert (votes + [vote])[..|votes|] == votes;
  }

  // ---- The wait --------------------------------------------------------------------------------

  method ContainsName(names: seq<string>, name: string) returns (found: bool)
    ensures found <==> name in names
  {
    for i := 0 to |names|
      invariant name !in names[..i]
    {
      if names[i] == name {
        return true;
      }
    }
    return false;
  }

  method WithoutName(names: seq<string>, name: string) returns (out: seq<string>)
    ensures out == Without(names, name)
  {
    out := [];
    var dropped := false;
    for i := 0 to |names|
      invariant if dropped then out + names[i..] == Without(names, name)
                else out + Without(names[i..], name) == Without(names, name)
    {
      assert names[i..] == [names[i]] + names[i + 1..];
      if !dropped && names[i] == name {
        dropped := true;
        continue;
      }
      out := out + [names[i]];
    }
  }

  /** A successful wait returns exactly the asked number of votes, each by a name still to vote, with no
      more rejections than allowed, after one await per vote; every await asked for exactly the names
      still to vote, and however the wait ends there are no more awaits than votes asked for. */
  method AwaitSignalsWithQuorum(signalNames: seq<string>, minCount: int, maxRejections: int,
                                deliver: nat -> Delivery, expired: nat -> bool)
    returns (votes: seq<Vote>, verdict: Verdict, asked: seq<seq<string>>)
    ensures Entitled(signalNames, votes)
    ensures Delivered(votes, deliver)
    ensures asked == Asks(signalNames, votes) || asked == Asks(signalNames, votes) + [ToVote(signalNames, votes)]
    ensures |asked| <= if minCount < 0 then 0 else minCount
    ensures verdict == OutOfTime || verdict == Broken || verdict.NotAsked? ==> |votes| < minCount
    ensures verdict == Unsatisfiable <==> minCount > |signalNames|
    ensures verdict == Unsatisfiable ==> asked == []
    ensures verdict == Reached ==> |votes| == (if minCount < 0 then 0 else minCount) && asked == Asks(signalNames, votes)
    ensures verdict == Reached && maxRejections >= 0 ==> Rejections(votes) <= maxRejections
    ensures verdict == TooManyRejections ==> Rejections(votes) == maxRejections + 1
    ensures InTime(votes, expired) && (|asked| > |votes| ==> !expired(|votes|))
    ensures verdict == TooManyRejections ==> maxRejections >= 0
    ensures verdict == OutOfTime ==> expired(|votes|) || deliver(|votes|).TimedOut?
    ensures verdict == Broken ==> deliver(|votes|).HostError?
    ensures verdict.NotAsked? ==>
              verdict.name !in ToVote(signalNames, votes) && deliver(|votes|).Signal? && deliver(|votes|).vote.name == verdict.name
  {
    votes, asked := [], [];
    if minCount > |signalNames| {
      return [], Unsatisfiable, [];
    }
    var rejectionCount := 0;
    var remaining := signalNames;
    while |votes| < minCount
      invariant 0 < minCount ==> |votes| <= minCount
      invariant minCount <= 0 ==> votes == []
      invariant Entitled(signalNames, votes) && remaining == ToVote(signalNames, votes) && asked == Asks(signalNames, votes)
      invariant |asked| == |votes| && InTime(votes, expired)
      invariant maxRejections >= 0 ==> rejectionCount == Rejections(votes) <= maxRejections
      invariant Delivered(votes, deliver)
      decreases minCount - |votes|
    {
      var n := |votes|;
      if expired(n) {
        return votes, OutOfTime, asked;
      }
      asked := asked + [remaining];
      var result := deliver(n);
      if result.TimedOut? {
        return votes, OutOfTime, asked;
      }
      if result.HostError? {
        return votes, Broken, asked;
      }
      var found := ContainsName(remaining, result.vote.name);
      if !found {
        return votes, NotAsked(result.vote.name), asked;
      }
      OneMoreVote(signalNames, votes, result.vote, deliver, expired);
      votes := votes + [result.vote];
      remaining := WithoutName(remaining, result.vote.name);
      if maxRejections >= 0 && result.vote.rejected {
        rejectionCount := rejectionCount + 1;
        if rejectionCount > maxRejections {
          return votes, TooManyRejections, asked;
        }
      }
    }
    return votes, Reached, asked;
  }

  // ---- Voters are the requested names ------------------------------------------------------------

  lemma {:induction false} WithoutCounts(names: seq<string>, name: string)
    requires name in names
    ensures multiset(Without(names, name)) + multiset{name} == multiset(names)
  {
    assert names == [names[0]] + names[1..];
    if names[0] != name { WithoutCounts(names[1..], name); }
  }

  lemma {:induction false} MovesOver(voted: multiset<string>, left: multiset<string>, before: multiset<string>, name: string)
    requires left + multiset{name} == before
    ensures voted + multiset{name} + left == voted + before
  {
    assert voted + multiset{name} + left == voted + (left + multiset{name});
  }

  /** Votes and names still to vote are together the requested names, so a name votes at most as often
      as it was asked for. */
  lemma {:induction false} VotesAreNames(names: seq<string>, votes: seq<Vote>)
    requires Entitled(names, votes)
    ensures multiset(Names(votes)) + multiset(ToVote(names, votes)) == multiset(names)
  {
    if votes != [] {
      var n := |votes| - 1;
      var before := votes[..n];
      VotesAreNames(names, before);
      var name, left := votes[n].name, ToVote(names, before);
      WithoutCounts(left, name);
      assert Names(votes) == Names(before) + [name];
      MovesOver(multiset(Names(before)), multiset(Without(left, name)), multiset(left), name);
    }
  }

  lemma {:induction false} OccursOnce(names: seq<string>, name: string)
    requires forall a, b :: 0 <= a < b < |names| ==> names[a] != names[b]
    ensures multiset(names)[name] == if name in names then 1 else 0
  {
    if names != [] {
      var n := |names| - 1;
      OccursOnce(names[..n], name);
      assert names == names[..n] + [names[n]];
    }
  }

  lemma {:induction false} EntitledPrefix(names: seq<string>, votes: seq<Vote>, k: nat)
    requires Entitled(names, votes) && k <= |votes|
    ensures Entitled(names, votes[..k])
  {
    if k < |votes| {
      EntitledPrefix(names, votes[..|votes| - 1], k);
      assert votes[..|votes| - 1][..k] == votes[..k];
    } else {
      assert votes[..k] == votes;
    }
  }

  /** Distinct requested names give distinct voters. */
  lemma {:induction false} DistinctVoters(names: seq<string>, votes: seq<Vote>, i: nat, j: nat)
    requires Entitled(names, votes) && i < j < |votes|
    requires forall a, b :: 0 <= a < b < |names| ==> names[a] != names[b]
    ensures votes[i].name != votes[j].name
  {
    EntitledPrefix(names, votes, j + 1);
    var before := votes[..j];
    assert votes[..j + 1][..j] == before;
    VotesAreNames(names, before);
    OccursOnce(names, votes[i].name);
    assert Names(before)[i] in multiset(Names(before));
    assert votes[j].name in multiset(ToVote(names, before));
  }

  // ---- What is counted ---------------------------------------------------------------------------

  /** Rejections are the votes that reject. */
  lemma {:induction false} RejectionsCount(votes: seq<Vote>)
    ensures Rejections(votes) == |set i | 0 <= i < |votes| && votes[i].rejected|
  {
    if votes != [] {
      var n := |votes| - 1;
      RejectionsCount(votes[..n]);
      var before := set i | 0 <= i < n && votes[..n][i].rejected;
      var all := set i | 0 <= i < |votes| && votes[i].rejected;
      assert all == before + (if votes[n].rejected then {n} else {});
    }
  }

  /** The first occurrence of the name goes, and no other. */
  lemma {:induction false} WithoutFirst(names: seq<string>, name: string, i: nat)
    requires i < |names| && names[i] == name && name !in names[..i]
    ensures Without(names, name) == names[..i] + names[i + 1..]
  {
    if i > 0 {
      WithoutFirst(names[1..], name, i - 1);
      assert names[..i] == [names[0]] + names[1..][..i - 1];
      assert names[1..][i - 1 + 1..] == names[i + 1..];
    }
  }
}
