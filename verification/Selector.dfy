/**
 Select over signals, child workflows and timers. The host is any set of functions on a host state; a
 timed-out wait moves its clock. Times are whole milliseconds.
 */
module Selector {
  import opened Options

  datatype ChildStatus = Completed(result: string) | ChildFailed | StillRunning | Unrecognised

  datatype Heard = HeardSignal(name: string, payload: string) | HeardNothing | HeardError

  datatype AnyChild = AnyChild(runID: string, failed: bool, result: string)

  datatype Host<!H> = Host(
    now: H -> int,
    pollSignal: (H, string) -> Option<string>,
    pollChild: (H, string) -> ChildStatus,
    awaitSignals: (H, seq<string>, int) -> (H, Heard),
    awaitAnyChild: (H, seq<string>) -> (H, AnyChild),
    sleep: (H, int) -> H)

  /** A wait that times out lasts as long as it was asked to, and an await answers with a name it was
      given. */
  ghost predicate KeepsTime<H(!new)>(host: Host<H>) {
    && (forall h, w :: w > 0 ==> host.now(host.sleep(h, w)) >= host.now(h) + w)
    && (forall h, names, w :: w > 0 && host.awaitSignals(h, names, w).1.HeardNothing? ==>
          host.now(host.awaitSignals(h, names, w).0) >= host.now(h) + w)
    && (forall h, names, w :: host.awaitSignals(h, names, w).1.HeardSignal? ==>
          host.awaitSignals(h, names, w).1.name in names)
  }

  /** A failed child wins without a result. */
  datatype Winner =
    | SignalWon(index: nat, payload: string)
    | ChildWon(index: nat, result: Option<string>)
    | TimerWon(index: nat)
    | Nobody

  /** One blocking wait: when it began and how long it may last. */
  datatype Wait = Wait(from: int, length: int)

  const MIN_CHILD_POLL := 1_000
  const MAX_CHILD_POLL := 30_000

  /** The interval before the j-th poll of pending children: doubling, up to the maximum. */
  function PollInterval(j: nat): (d: int)
    ensures 0 < d <= MAX_CHILD_POLL
  {
    if j == 0 then MIN_CHILD_POLL
    else if 2 * PollInterval(j - 1) > MAX_CHILD_POLL then MAX_CHILD_POLL
    else 2 * PollInterval(j - 1)
  }

  /** The first poll comes after a second, each interval is the smaller of twice the one before it and half
      a minute. */
  lemma {:induction false} IntervalsDouble(j: nat)
    ensures PollInterval(0) == 1_000
    ensures PollInterval(j + 1) == (if 2 * PollInterval(j) < 30_000 then 2 * PollInterval(j) else 30_000)
  {
  }

  /** Polls at doubling intervals, up to the maximum. */
  predicate Doubling(polls: seq<int>) {
    polls == [] || (Doubling(polls[..|polls| - 1]) && polls[|polls| - 1] == PollInterval(|polls| - 1))
  }

  lemma {:induction false} DoublingAt(polls: seq<int>, j: nat)
    requires Doubling(polls) && j < |polls|
    ensures polls[j] == PollInterval(j)
  {
    if j < |polls| - 1 { DoublingAt(polls[..|polls| - 1], j); }
  }

  lemma {:induction false} OneMorePoll(polls: seq<int>, d: int)
    requires Doubling(polls) && d == PollInterval(|polls|)
    ensures Doubling(polls + [d])
  {
    assert (polls + [d])[..|polls|] == polls;
  }

  predicate Earliest(timers: seq<int>, i: nat) {
    && i < |timers|
    && (forall j :: 0 <= j < |timers| ==> timers[i] <= timers[j])
    && (forall j :: 0 <= j < i ==> timers[i] < timers[j])
  }

  /** The wait ends no later than the earliest deadline. */
  predicate EndsBy(timers: seq<int>, w: Wait) {
    timers != [] && (forall t :: 0 <= t < |timers| ==> w.from + w.length <= timers[t])
  }

  predicate AllEndBy(timers: seq<int>, waits: seq<Wait>) {
    waits == [] || (AllEndBy(timers, waits[..|waits| - 1]) && EndsBy(timers, waits[|waits| - 1]))
  }

  lemma {:induction false} EndsByAt(timers: seq<int>, waits: seq<Wait>, i: nat)
    requires AllEndBy(timers, waits) && i < |waits|
    ensures EndsBy(timers, waits[i])
  {
    if i < |waits| - 1 { EndsByAt(timers, waits[..|waits| - 1], i); }
  }

  /** Position of the first child with this run id, or the length. */
  predicate FirstAt(s: seq<string>, x: string, i: nat) {
    i <= |s| && x !in s[..i] && (i < |s| ==> s[i] == x)
  }

  method IndexOf(s: seq<string>, x: string) returns (i: nat)
    ensures FirstAt(s, x, i)
  {
    i := 0;
    while i < |s| && s[i] != x
      invariant i <= |s| && x !in s[..i]
    {
      i := i + 1;
    }
  }

  /** The first signal already delivered, or the number of signals. */
  method PollSignals<H>(host: Host<H>, h: H, signals: seq<string>) returns (i: nat, payload: string)
    ensures i <= |signals| && (forall j :: 0 <= j < i ==> host.pollSignal(h, signals[j]).None?)
    ensures i < |signals| ==> host.pollSignal(h, signals[i]) == Some(payload)
  {
    i, payload := 0, "";
    while i < |signals|
      invariant i <= |signals| && (forall j :: 0 <= j < i ==> host.pollSignal(h, signals[j]).None?)
    {
      var got := host.pollSignal(h, signals[i]);
      if got.Some? {
        payload := got.value;
        return;
      }
      i := i + 1;
    }
  }

  /** The first child that is not running, or the number of children, all of them pending. */
  method PollChildren<H>(host: Host<H>, h: H, children: seq<string>) returns (i: nat, status: ChildStatus)
    ensures i <= |children| && (forall j :: 0 <= j < i ==> host.pollChild(h, children[j]).StillRunning?)
    ensures i < |children| ==> status == host.pollChild(h, children[i]) && !status.StillRunning?
  {
    i, status := 0, StillRunning;
    while i < |children|
      invariant i <= |children| && (forall j :: 0 <= j < i ==> host.pollChild(h, children[j]).StillRunning?)
    {
      status := host.pollChild(h, children[i]);
      if !status.StillRunning? {
        return;
      }
      i := i + 1;
    }
  }

  class Selection {
    const signals: seq<string>
    const children: seq<string>
    const timers: seq<int>
    var signalDest: seq<string>
    var childDest: seq<string>
    var fired: seq<bool>
    var err: bool

    ghost predicate Valid()
      reads this
    {
      |signalDest| == |signals| && |childDest| == |children| && |fired| == |timers|
    }

    constructor (signals: seq<string>, children: seq<string>, timers: seq<int>)
      ensures this.signals == signals && this.children == children && this.timers == timers && Valid() && !err
    {
      this.signals, this.children, this.timers := signals, children, timers;
      signalDest := seq(|signals|, _ => "");
      childDest := seq(|children|, _ => "");
      fired := seq(|timers|, _ => false);
      err := false;
    }

    method EarliestTimer() returns (best: int)
      ensures best == -1 <==> timers == []
      ensures timers != [] ==> 0 <= best && Earliest(timers, best)
    {
      best := -1;
      for i := 0 to |timers|
        invariant best == -1 <==> i == 0
        invariant i > 0 ==> 0 <= best < i
        invariant i > 0 ==> forall j :: 0 <= j < i ==> timers[best] <= timers[j]
        invariant i > 0 ==> forall j :: 0 <= j < best ==> timers[best] < timers[j]
      {
        if best == -1 || timers[i] < timers[best] {
          best := i;
        }
      }
    }

    /** The winner's destination is written and no other; no write without a winner. */
    twostate predicate Wrote(w: Winner)
      reads this
    {
      match w
      case SignalWon(i, payload) =>
        i < |signals| && i < old(|signalDest|) && signalDest == old(signalDest)[i := payload]
        && childDest == old(childDest) && fired == old(fired) && !err
      case ChildWon(i, result) =>
        i < |children| && i < old(|childDest|) && signalDest == old(signalDest) && fired == old(fired) && err == result.None?
        && childDest == (if result.Some? then old(childDest)[i := result.value] else old(childDest))
      case TimerWon(i) =>
        i < |timers| && i < old(|fired|) && fired == old(fired)[i := true]
        && signalDest == old(signalDest) && childDest == old(childDest) && !err
      case Nobody => signalDest == old(signalDest) && childDest == old(childDest) && fired == old(fired)
    }

    method TakeSignal(i: nat, payload: string) returns (w: Winner)
      requires Valid() && i < |signals| && !err
      modifies this
      ensures Valid() && Wrote(w) && w == SignalWon(i, payload)
    {
      signalDest := signalDest[i := payload];
      return SignalWon(i, payload);
    }

    method TakeChild(i: nat, failed: bool, result: string) returns (w: Winner)
      requires Valid() && i < |children| && !err
      modifies this
      ensures Valid() && Wrote(w) && w == ChildWon(i, if failed then None else Some(result))
    {
      if failed {
        err := true;
        return ChildWon(i, None);
      }
      childDest := childDest[i := result];
      return ChildWon(i, Some(result));
    }

    method TakeTimer(i: nat) returns (w: Winner)
      requires Valid() && i < |timers| && !err
      modifies this
      ensures Valid() && Wrote(w) && w == TimerWon(i)
    {
      fired := fired[i := true];
      return TimerWon(i);
    }

    /** The winner of a check is what the host reported there: the first delivered signal; with none, the
        first child that is not running; with none of those, a timer that is due. */
    ghost predicate Reported<H>(host: Host<H>, h: H, timer: int, w: Winner)
      reads this
    {
      match w
      case SignalWon(i, payload) =>
        && i < |signals| && host.pollSignal(h, signals[i]) == Some(payload)
        && (forall j :: 0 <= j < i ==> host.pollSignal(h, signals[j]).None?)
      case ChildWon(i, result) =>
        && i < |children| && NoSignal(host, h)
        && host.pollChild(h, children[i]) == (if result.Some? then Completed(result.value) else ChildFailed)
        && (forall j :: 0 <= j < i ==> host.pollChild(h, children[j]).StillRunning?)
      case TimerWon(i) =>
        i == timer && i < |timers| && NoSignal(host, h) && AllRunning(host, h) && host.now(h) >= timers[i]
      case Nobody =>
        && NoSignal(host, h) && err
        && (exists i :: 0 <= i < |children| && host.pollChild(h, children[i]).Unrecognised?
              && (forall j :: 0 <= j < i ==> host.pollChild(h, children[j]).StillRunning?))
    }

    predicate NoSignal<H>(host: Host<H>, h: H) {
      forall j :: 0 <= j < |signals| ==> host.pollSignal(h, signals[j]).None?
    }

    predicate AllRunning<H>(host: Host<H>, h: H) {
      forall j :: 0 <= j < |children| ==> host.pollChild(h, children[j]).StillRunning?
    }

    /** Everything is checked without blocking: signals, then children, then the earliest timer. */
    method CheckAll<H>(host: Host<H>, h: H, timer: int) returns (done: bool, w: Winner)
      requires Valid() && !err && timer < |timers|
      modifies this
      ensures Valid()
      ensures done ==> Wrote(w)
      ensures done ==> Reported(host, h, timer, w)
      ensures !done ==> unchanged(this) && NoSignal(host, h) && AllRunning(host, h)
      ensures !done && timer >= 0 ==> host.now(h) < timers[timer]
    {
      done := true;
      var i, payload := PollSignals(host, h, signals);
      if i < |signals| {
        w := TakeSignal(i, payload);
        return;
      }
      var c, status := PollChildren(host, h, children);
      if c < |children| {
        if status.Unrecognised? {
          err := true;
          return true, Nobody;
        }
        w := TakeChild(c, status.ChildFailed?, if status.Completed? then status.result else "");
        return;
      }
      if timer >= 0 && host.now(h) >= timers[timer] {
        w := TakeTimer(timer);
        return;
      }
      return false, Nobody;
    }

    /** The winner is the first future with the answered run id; an unknown run id is an error. */
    ghost predicate Answered(any: AnyChild, w: Winner)
      reads this
    {
      match w
      case ChildWon(i, result) =>
        i < |children| && FirstAt(children, any.runID, i) && result == (if any.failed then None else Some(any.result))
      case Nobody => any.runID !in children && err
      case _ => false
    }

    /** Only children left: wait for any of them. */
    method AwaitChildren<H>(host: Host<H>, h: H) returns (w: Winner, h': H)
      requires Valid() && !err
      modifies this
      ensures Valid() && Wrote(w)
      ensures children == [] ==> w == Nobody && !err
      ensures children != [] ==> Answered(host.awaitAnyChild(h, children).1, w)
    {
      if children == [] {
        return Nobody, h;
      }
      var (after, any) := host.awaitAnyChild(h, children);
      h' := after;
      var k := IndexOf(children, any.runID);
      if k < |children| {
        w := TakeChild(k, any.failed, any.result);
      } else {
        err := true;
        w := Nobody;
      }
    }

    /** The host after one blocking wait. */
    function Waited<H>(host: Host<H>, h: H, wait: int): H {
      if signals == [] then host.sleep(h, wait) else host.awaitSignals(h, signals, wait).0
    }

    /** The host after these waits. */
    function After<H>(host: Host<H>, start: H, waits: seq<Wait>): H {
      if waits == [] then start
      else Waited(host, After(host, start, waits[..|waits| - 1]), waits[|waits| - 1].length)
    }

    /** Nothing to report: no signal, every child running, no timer due. */
    predicate QuietAt<H>(host: Host<H>, h: H) {
      NoSignal(host, h) && AllRunning(host, h) && forall t :: 0 <= t < |timers| ==> host.now(h) < timers[t]
    }

    /** Each wait began where the one before it ended, with nothing to report. */
    predicate QuietBefore<H>(host: Host<H>, start: H, waits: seq<Wait>) {
      waits == [] ||
      (var n := |waits| - 1;
       var before := After(host, start, waits[..n]);
       QuietBefore(host, start, waits[..n]) && QuietAt(host, before) && waits[n].from == host.now(before))
    }

    lemma {:induction false} OneMoreWait<H>(host: Host<H>, start: H, waits: seq<Wait>, next: Wait)
      requires QuietBefore(host, start, waits) && QuietAt(host, After(host, start, waits))
      requires next.from == host.now(After(host, start, waits)) && AllEndBy(timers, waits) && EndsBy(timers, next)
      ensures AllEndBy(timers, waits + [next])
      ensures QuietBefore(host, start, waits + [next])
      ensures After(host, start, waits + [next]) == Waited(host, After(host, start, waits), next.length)
      ensures (waits + [next])[..|waits|] == waits
    {
      assert (waits + [next])[..|waits|] == waits;
    }

    /** The winner is what a wait that began at h ended with: the signal it heard, its error, or the timer
        it slept until. */
    ghost predicate Ended<H>(host: Host<H>, h: H, last: Wait, w: Winner)
      reads this
    {
      match w
      case SignalWon(i, payload) =>
        && i < |signals| && host.awaitSignals(h, signals, last.length).1 == HeardSignal(signals[i], payload)
        && signals[i] !in signals[..i]
      case TimerWon(i) => signals == [] && i < |timers| && last.from + last.length == timers[i]
      case Nobody => signals != [] && err && host.awaitSignals(h, signals, last.length).1 == HeardError
      case ChildWon(_, _) => false
    }

    /** Where the winner of a selection with a timer, or of one that never waited, comes from: the check
        after the last wait, or the last wait itself. */
    ghost predicate CameFrom<H>(host: Host<H>, start: H, waits: seq<Wait>, w: Winner)
      reads this
    {
      || Reported(host, After(host, start, waits), if w.TimerWon? then w.index else 0, w)
      || (waits != [] && Ended(host, After(host, start, waits[..|waits| - 1]), waits[|waits| - 1], w))
    }

    lemma {:induction false} LastWaitEnds<H>(host: Host<H>, start: H, waits: seq<Wait>, next: Wait, w: Winner)
      requires
        || Ended(host, After(host, start, waits), next, w)
        || Reported(host, After(host, start, waits + [next]), if w.TimerWon? then w.index else 0, w)
      ensures CameFrom(host, start, waits + [next], w)
    {
      assert (waits + [next])[..|waits|] == waits;
    }

    /** One blocking wait of at most `wait`. Unless it ends the selection, the clock has moved by it. */
    method WaitOnce<H(!new)>(host: Host<H>, h: H, wait: Wait, toDeadline: bool, timer: nat)
      returns (done: bool, w: Winner, h': H)
      requires Valid() && !err && KeepsTime(host) && wait.length > 0 && timer < |timers|
      requires toDeadline ==> wait.from + wait.length == timers[timer]
      modifies this
      ensures Valid() && h' == Waited(host, h, wait.length)
      ensures done ==> Wrote(w) && Ended(host, h, wait, w)
      ensures done && w.TimerWon? ==> w.index == timer
      ensures !done || w.TimerWon? ==> host.now(h') >= host.now(h) + wait.length
      ensures !done ==> unchanged(this)
    {
      done, w := false, Nobody;
      if signals == [] {
        h' := host.sleep(h, wait.length);
        if toDeadline {
          done := true;
          w := TakeTimer(timer);
        }
        return;
      }
      var (after, heard) := host.awaitSignals(h, signals, wait.length);
      h' := after;
      match heard {
        case HeardNothing =>
        case HeardError =>
          err := true;
          done := true;
        case HeardSignal(name, text) =>
          var k := IndexOf(signals, name);
          done := true;
          w := TakeSignal(k, text);
      }
    }

    /** A wait, and unless it ends the selection, a check. */
    method Round<H(!new)>(host: Host<H>, h: H, wait: Wait, toDeadline: bool, timer: nat)
      returns (done: bool, w: Winner, h': H)
      requires Valid() && !err && KeepsTime(host) && wait.length > 0 && Earliest(timers, timer)
      requires wait.from == host.now(h) && (toDeadline ==> wait.from + wait.length == timers[timer])
      modifies this
      ensures Valid() && h' == Waited(host, h, wait.length)
      ensures done ==> Wrote(w) && (Ended(host, h, wait, w) || Reported(host, h', if w.TimerWon? then w.index else 0, w))
      ensures done && w.TimerWon? ==> w.index == timer && host.now(h') >= timers[timer]
      ensures !done ==> unchanged(this) && QuietAt(host, h') && host.now(h') >= host.now(h) + wait.length
    {
      done, w, h' := WaitOnce(host, h, wait, toDeadline, timer);
      if !done {
        done, w := CheckAll(host, h', timer);
      }
    }

    /** Rounds of waiting and checking until one of them ends the selection: the time left to the earliest
        deadline shrinks with every wait. */
    method WaitLoop<H(!new)>(host: Host<H>, start: H, timer: nat)
      returns (w: Winner, h: H, waits: seq<Wait>, polls: seq<int>)
      requires Valid() && !err && KeepsTime(host) && Earliest(timers, timer) && QuietAt(host, start)
      modifies this
      ensures Valid() && Wrote(w) && CameFrom(host, start, waits, w)
      ensures w.TimerWon? ==> w.index == timer && host.now(h) >= timers[timer]
      ensures QuietBefore(host, start, waits) && AllEndBy(timers, waits) && Doubling(polls)
    {
      w, h, waits, polls := Nobody, start, [], [];
      var done := false;
      while !done
        invariant Valid() && h == After(host, start, waits)
        invariant done ==> Wrote(w) && CameFrom(host, start, waits, w)
        invariant done && w.TimerWon? ==> w.index == timer && host.now(h) >= timers[timer]
        invariant !done ==> unchanged(this) && QuietAt(host, h)
        invariant QuietBefore(host, start, waits) && AllEndBy(timers, waits) && Doubling(polls)
        decreases !done, timers[timer] - host.now(h)
      {
        var wait, toDeadline := timers[timer] - host.now(h), true;
        if children != [] && PollInterval(|polls|) < wait {
          wait, toDeadline := PollInterval(|polls|), false;
          OneMorePoll(polls, wait);
          polls := polls + [wait];
        }
        var next := Wait(host.now(h), wait);
        assert EndsBy(timers, next);
        OneMoreWait(host, start, waits, next);
        done, w, h := Round(host, h, next, toDeadline, timer);
        if done {
          LastWaitEnds(host, start, waits, next, w);
        }
        waits := waits + [next];
      }
    }

    /** With a timer, or with no signal to wait for, Select ends. It never waits past the earliest deadline,
        polls pending children at doubling intervals up to the maximum, takes the first thing there is to
        report, and writes the winner's destination only. */
    method Select<H(!new)>(host: Host<H>, start: H) returns (w: Winner, h: H, waits: seq<Wait>, polls: seq<int>)
      requires Valid() && KeepsTime(host) && (timers != [] || signals == [])
      modifies this
      ensures Valid() && Wrote(w)
      ensures w.TimerWon? ==> Earliest(timers, w.index) && host.now(h) >= timers[w.index]
      ensures forall i :: 0 <= i < |waits| ==> EndsBy(timers, waits[i])
      ensures forall j :: 0 <= j < |polls| ==> polls[j] == PollInterval(j)
      ensures QuietBefore(host, start, waits)
      ensures if timers != [] || !NoSignal(host, start) || !AllRunning(host, start)
              then CameFrom(host, start, waits, w)
              else if children != [] then Answered(host.awaitAnyChild(start, children).1, w)
              else w == Nobody && !err
    {
      err := false;
      h, waits, polls := start, [], [];
      var timer := EarliestTimer();
      var done;
      done, w := CheckAll(host, h, timer);
      if done {
        return;
      }
      if timer < 0 {
        w, h := AwaitChildren(host, h);
        return;
      }
      w, h, waits, polls := WaitLoop(host, h, timer);
      forall i | 0 <= i < |waits| ensures EndsBy(timers, waits[i]) { EndsByAt(timers, waits, i); }
      forall j | 0 <= j < |polls| ensures polls[j] == PollInterval(j) { DoublingAt(polls, j); }
    }
  }
}
