/**
 History compaction: folding the oldest events into a checkpoint, and rebuilding a replayable
 history from the checkpoint and the rows that were kept.
 */
module Compaction {
  import opened EventCodec

  datatype PendingDefer = PendingDefer(id: string, description: string)

  datatype OpenChild = OpenChild(runID: string, name: string, input: string)

  datatype State = State(
    compactedStep: nat,
    events: seq<CompactedEvent>,
    pendingDefers: seq<PendingDefer>,
    openChildren: seq<OpenChild>,
    truncatedCount: nat)

  datatype Extraction = Extracted(state: State) | Refused(kind: EventType)

  const MAX_COMPACTED_EVENTS := 10000

  function TextAt(ev: EventRecord, f: Field): string {
    TextOf(ev.fields(f))
  }

  // ---- What the checkpoint must say ----------------------------------------------------------

  function CompactAll(events: seq<EventRecord>): (cs: seq<CompactedEvent>)
    ensures |cs| == |events|
  {
    seq(|events|, i requires 0 <= i < |events| => Compact(events[i]))
  }

  /** The newest events that fit the cap. */
  function Newest<T>(s: seq<T>): seq<T> {
    if |s| > MAX_COMPACTED_EVENTS then s[|s| - MAX_COMPACTED_EVENTS..] else s
  }

  /** Exactly the last events, in order, as many as fit. */
  lemma {:induction false} NewestIsTheTail<T>(s: seq<T>, i: nat)
    requires i < |Newest(s)|
    ensures |Newest(s)| == (if |s| <= 10_000 then |s| else 10_000) && Newest(s)[i] == s[|s| - |Newest(s)| + i]
  {
  }

  predicate Starts(ev: EventRecord, runID: string) {
    ev.kind == ChildWorkflow && TextAt(ev, Field.RunID) == runID
  }

  /** This event takes the child off the open list: its own settled await, or any await-all. */
  predicate Closes(ev: EventRecord, runID: string) {
    || ev.kind == AwaitAllChildren
    || (ev.kind == AwaitChild && TextAt(ev, Field.RunID) == runID
        && (TextAt(ev, Field.Response) != "" || TextAt(ev, Field.Err) != ""))
  }

  ghost predicate IsOpen(events: seq<EventRecord>, runID: string) {
    exists i :: 0 <= i < |events| && Starts(events[i], runID)
             && (forall j :: i < j < |events| ==> !Closes(events[j], runID))
  }

  predicate Defers(ev: EventRecord, id: string) {
    ev.kind == Defer && TextAt(ev, Field.DeferID) == id
  }

  /** The last defer event for this id, if any, has this description. */
  ghost predicate LastDescription(events: seq<EventRecord>, id: string, description: string) {
    exists i :: 0 <= i < |events| && Defers(events[i], id) && TextAt(events[i], DeferDescription) == description
             && (forall j :: i < j < |events| ==> !Defers(events[j], id))
  }

  /** One entry per deferred id, with its last description. */
  ghost predicate PendingExactly(events: seq<EventRecord>, ds: seq<PendingDefer>) {
    && (forall i, j :: 0 <= i < j < |ds| ==> ds[i].id != ds[j].id)
    && (forall i :: 0 <= i < |ds| ==> LastDescription(events, ds[i].id, ds[i].description))
    && (forall i :: 0 <= i < |events| && events[i].kind == Defer ==>
          exists k :: 0 <= k < |ds| && ds[k].id == TextAt(events[i], Field.DeferID))
  }

  /** The entry carries the name and input of the first start of its child. */
  ghost predicate Describes(events: seq<EventRecord>, c: OpenChild) {
    exists i :: 0 <= i < |events| && Starts(events[i], c.runID)
             && c.name == TextAt(events[i], Field.ChildName) && c.input == TextAt(events[i], Field.ChildInput)
             && (forall j :: 0 <= j < i ==> !Starts(events[j], c.runID))
  }

  /** One entry per open child, and no other. */
  ghost predicate OpenExactly(events: seq<EventRecord>, cs: seq<OpenChild>) {
    && (forall i, j :: 0 <= i < j < |cs| ==> cs[i].runID != cs[j].runID)
    && (forall i :: 0 <= i < |cs| ==> IsOpen(events, cs[i].runID) && Describes(events, cs[i]))
    && (forall r :: IsOpen(events, r) ==> exists k :: 0 <= k < |cs| && cs[k].runID == r)
  }

  lemma {:induction false} IsOpenStep(events: seq<EventRecord>, ev: EventRecord, runID: string)
    ensures IsOpen(events + [ev], runID) <==> Starts(ev, runID) || (IsOpen(events, runID) && !Closes(ev, runID))
  {
    var n, all := |events|, events + [ev];
    assert all[n] == ev;
    if IsOpen(events, runID) && !Closes(ev, runID) {
      var i :| 0 <= i < |events| && Starts(events[i], runID)
            && (forall j :: i < j < |events| ==> !Closes(events[j], runID));
      assert Starts(all[i], runID);
    }
    if IsOpen(all, runID) && !Starts(ev, runID) {
      var i :| 0 <= i < |all| && Starts(all[i], runID) && (forall j :: i < j < |all| ==> !Closes(all[j], runID));
      assert Starts(events[i], runID);
      forall j | i < j < |events| ensures !Closes(events[j], runID) { assert !Closes(all[j], runID); }
    }
  }

  lemma {:induction false} LastDescriptionStep(events: seq<EventRecord>, ev: EventRecord, id: string,
                                               description: string)
    ensures LastDescription(events + [ev], id, description)
       <==> if Defers(ev, id) then TextAt(ev, DeferDescription) == description
            else LastDescription(events, id, description)
  {
    var n, all := |events|, events + [ev];
    assert all[n] == ev;
    if LastDescription(events, id, description) && !Defers(ev, id) {
      var i :| 0 <= i < |events| && Defers(events[i], id) && TextAt(events[i], DeferDescription) == description
            && (forall j :: i < j < |events| ==> !Defers(events[j], id));
      assert Defers(all[i], id);
    }
    if LastDescription(all, id, description) && !Defers(ev, id) {
      var i :| 0 <= i < |all| && Defers(all[i], id) && TextAt(all[i], DeferDescription) == description
            && (forall j :: i < j < |all| ==> !Defers(all[j], id));
      assert Defers(events[i], id);
      forall j | i < j < |events| ensures !Defers(events[j], id) { assert !Defers(all[j], id); }
    }
  }

  // ---- Extraction ------------------------------------------------------------------------------

  /** The fold: compacted events, the last description of each defer and the open children. */
  method Fold(events: seq<EventRecord>)
    returns (cs: seq<CompactedEvent>, defersSeen: map<string, string>, openChildren: set<string>, stop: nat)
    ensures stop <= |events| && (forall i :: 0 <= i < stop ==> Compactable(events[i].kind))
    ensures stop < |events| ==> !Compactable(events[stop].kind)
    ensures cs == CompactAll(events[..stop])
    ensures forall id, d :: LastDescription(events[..stop], id, d) <==> id in defersSeen && defersSeen[id] == d
    ensures forall r :: IsOpen(events[..stop], r) <==> r in openChildren
  {
    cs, defersSeen, openChildren, stop := [], map[], {}, 0;
    while stop < |events|
      invariant stop <= |events| && (forall i :: 0 <= i < stop ==> Compactable(events[i].kind))
      invariant cs == CompactAll(events[..stop])
      invariant forall id, d :: LastDescription(events[..stop], id, d) <==> id in defersSeen && defersSeen[id] == d
      invariant forall r :: IsOpen(events[..stop], r) <==> r in openChildren
    {
      var ev := events[stop];
      if !Compactable(ev.kind) {
        return;
      }
      assert events[..stop + 1] == events[..stop] + [ev];
      forall id, d { LastDescriptionStep(events[..stop], ev, id, d); }
      forall r { IsOpenStep(events[..stop], ev, r); }
      match ev.kind {
        case Defer => defersSeen := defersSeen[TextAt(ev, Field.DeferID) := TextAt(ev, DeferDescription)];
        case ChildWorkflow => openChildren := openChildren + {TextAt(ev, Field.RunID)};
        case AwaitChild =>
          if TextAt(ev, Field.Response) != "" || TextAt(ev, Field.Err) != "" {
            openChildren := openChildren - {TextAt(ev, Field.RunID)};
          }
        case AwaitAllChildren => openChildren := {};
        case _ =>
      }
      cs := cs + [Compact(ev)];
      stop := stop + 1;
    }
  }

  /** The keys of a map in the order its iteration happens to visit them. */
  method Enumerate(keys: set<string>) returns (ids: seq<string>)
    ensures forall i, j :: 0 <= i < j < |ids| ==> ids[i] != ids[j]
    ensures forall x :: x in ids <==> x in keys
  {
    ids := [];
    var left := keys;
    while left != {}
      invariant left <= keys
      invariant forall x :: x in ids <==> x in keys - left
      invariant forall i, j :: 0 <= i < j < |ids| ==> ids[i] != ids[j]
      decreases |left|
    {
      var id :| id in left;
      ids := ids + [id];
      left := left - {id};
    }
  }

  method ListDefers(events: seq<EventRecord>, defersSeen: map<string, string>) returns (ds: seq<PendingDefer>)
    requires forall id, d :: LastDescription(events, id, d) <==> id in defersSeen && defersSeen[id] == d
    ensures PendingExactly(events, ds)
  {
    ds := [];
    var ids := Enumerate(defersSeen.Keys);
    for k := 0 to |ids|
      invariant |ds| == k
      invariant forall i :: 0 <= i < k ==> ds[i] == PendingDefer(ids[i], defersSeen[ids[i]])
    {
      ds := ds + [PendingDefer(ids[k], defersSeen[ids[k]])];
    }
    forall i | 0 <= i < |events| && events[i].kind == Defer
      ensures exists k :: 0 <= k < |ds| && ds[k].id == TextAt(events[i], Field.DeferID)
    {
      HasLastDescription(events, i);
      var k :| 0 <= k < |ids| && ids[k] == TextAt(events[i], Field.DeferID);
      assert ds[k].id == ids[k];
    }
  }

  /** A deferred id has a last description. */
  lemma {:induction false} HasLastDescription(events: seq<EventRecord>, i: nat)
    requires i < |events| && events[i].kind == Defer
    ensures exists d :: LastDescription(events, TextAt(events[i], Field.DeferID), d)
  {
    var n, id := |events| - 1, TextAt(events[i], Field.DeferID);
    assert events[..n] + [events[n]] == events;
    if Defers(events[n], id) {
      LastDescriptionStep(events[..n], events[n], id, TextAt(events[n], DeferDescription));
    } else {
      HasLastDescription(events[..n], i);
      var d :| LastDescription(events[..n], id, d);
      LastDescriptionStep(events[..n], events[n], id, d);
    }
  }

  method FirstStart(events: seq<EventRecord>, runID: string) returns (c: OpenChild)
    requires IsOpen(events, runID)
    ensures c.runID == runID && Describes(events, c)
  {
    var i := 0;
    while i < |events| && !Starts(events[i], runID)
      invariant 0 <= i <= |events|
      invariant forall j :: 0 <= j < i ==> !Starts(events[j], runID)
    {
      i := i + 1;
    }
    c := OpenChild(runID, TextAt(events[i], Field.ChildName), TextAt(events[i], Field.ChildInput));
  }

  method ListOpenChildren(events: seq<EventRecord>, openChildren: set<string>) returns (cs: seq<OpenChild>)
    requires forall r :: IsOpen(events, r) <==> r in openChildren
    ensures OpenExactly(events, cs)
  {
    cs := [];
    var ids := Enumerate(openChildren);
    for k := 0 to |ids|
      invariant |cs| == k
      invariant forall i :: 0 <= i < k ==> cs[i].runID == ids[i] && Describes(events, cs[i])
    {
      assert ids[k] in openChildren;
      var c := FirstStart(events, ids[k]);
      cs := cs + [c];
    }
    forall r | IsOpen(events, r) ensures exists k :: 0 <= k < |cs| && cs[k].runID == r {
      var k :| 0 <= k < |ids| && ids[k] == r;
      assert cs[k].runID == ids[k];
    }
  }

  /** Extraction refuses exactly when some event has no code or no arm. Otherwise the checkpoint
      holds the newest events that fit the cap, one entry per deferred id with its last
      description, and one entry per child still open. */
  method ExtractCompactionState(events: seq<EventRecord>) returns (r: Extraction)
    ensures r.Refused? <==> exists i :: 0 <= i < |events| && !Compactable(events[i].kind)
    ensures r.Refused? ==> !Compactable(r.kind)
    ensures r.Extracted? ==>
              && r.state.events == Newest(CompactAll(events))
              && r.state.compactedStep == |r.state.events|
              && r.state.truncatedCount == |events| - |r.state.events|
              && PendingExactly(events, r.state.pendingDefers)
              && OpenExactly(events, r.state.openChildren)
  {
    var cs, defersSeen, openChildren, stop := Fold(events);
    if stop < |events| {
      return Refused(events[stop].kind);
    }
    assert events[..stop] == events;
    var ds := ListDefers(events, defersSeen);
    var children := ListOpenChildren(events, openChildren);
    var state := State(|events|, cs, ds, children, 0);
    if |cs| > MAX_COMPACTED_EVENTS {
      var truncated := |cs| - MAX_COMPACTED_EVENTS;
      state := state.(events := cs[truncated..], compactedStep := state.compactedStep - truncated,
                      truncatedCount := truncated);
    }
    return Extracted(state);
  }

  // ---- Rebuilding ------------------------------------------------------------------------------

  function RestoreAll(cs: seq<CompactedEvent>): (evs: seq<EventRecord>)
    ensures |evs| == |cs|
  {
    seq(|cs|, i requires 0 <= i < |cs| => Restore(i, cs[i]))
  }

  method BuildFullHistory(tail: seq<EventRecord>, state: State) returns (full: seq<EventRecord>)
    ensures full == RestoreAll(state.events) + tail
  {
    full := [];
    for i := 0 to |state.events|
      invariant full == RestoreAll(state.events[..i])
    {
      full := full + [Restore(i, state.events[i])];
    }
    assert state.events[..|state.events|] == state.events;
    full := full + tail;
  }

  /** Every record sits at the index its step names. */
  predicate Dense(history: seq<EventRecord>) {
    forall i :: 0 <= i < |history| ==> history[i].step == i
  }

  method ValidateReplayStepDensity(history: seq<EventRecord>) returns (ok: bool)
    ensures ok <==> Dense(history)
  {
    for i := 0 to |history|
      invariant forall j :: 0 <= j < i ==> history[j].step == j
    {
      if history[i].step != i {
        return false;
      }
    }
    return true;
  }

  /** The history replay sees after the first `keep` rows were compacted. */
  function Rebuilt(rows: seq<EventRecord>, keep: nat): seq<EventRecord>
    requires keep <= |rows|
  {
    RestoreAll(Newest(CompactAll(rows[..keep]))) + rows[keep..]
  }

  ghost predicate CompactableAll(events: seq<EventRecord>) {
    forall i :: 0 <= i < |events| ==> Compactable(events[i].kind) && Typed(events[i])
  }

  /** The rebuilt history has record i at step i throughout exactly when nothing was truncated or
      nothing was kept. */
  lemma {:induction false} StepsAlign(rows: seq<EventRecord>, keep: nat)
    requires keep <= |rows| && Dense(rows)
    ensures Dense(Rebuilt(rows, keep)) <==> keep <= MAX_COMPACTED_EVENTS || keep == |rows|
  {
    var full := Rebuilt(rows, keep);
    if MAX_COMPACTED_EVENTS < keep < |rows| {
      assert full[MAX_COMPACTED_EVENTS] == rows[keep];
    }
  }

  /** Within the cap, the record rebuilt at index i is the original record i on every field its
      type carries, and the kept rows are unchanged. */
  lemma {:induction false} RebuiltRecord(rows: seq<EventRecord>, keep: nat, i: nat, f: Field)
    requires keep <= |rows| && keep <= MAX_COMPACTED_EVENTS && Dense(rows) && CompactableAll(rows[..keep]) && i < |rows|
    ensures |Rebuilt(rows, keep)| == |rows|
    ensures var back := Rebuilt(rows, keep)[i];
            && back.step == i && back.kind == rows[i].kind && back.timestampMs == rows[i].timestampMs
            && (i >= keep || Carries(rows[i].kind, f) ==> back.fields(f) == rows[i].fields(f))
            && (i < keep && !Carries(rows[i].kind, f) ==> back.fields(f) == Zero(f))
  {
    if i < keep {
      assert rows[..keep][i] == rows[i];
      RestoreCompact(rows[i], i, f);
    }
  }
}
