/**
 Where tenant rows come from: over every interleaving of creates, drops and suspensions, the name, org and
 creator of a tenant, and of the tombstone it leaves, are those that a create of that id asked for.
 */
module TenantOrigins {
  import opened Tenants
  import opened TenantRaces

  predicate SameRequest(a: Tenant, b: Tenant) {
    a.name == b.name && a.org == b.org && a.creator == b.creator
  }

  /** Some create of the run asked for this tenant under this id. */
  ghost predicate WasAsked(events: seq<TenantRaces.Event>, id: Id, t: Tenant) {
    exists i :: 0 <= i < |events| && events[i].AskCreate? && events[i].id == id && SameRequest(events[i].tenant, t)
  }

  predicate Creating(phase: Phase) {
    phase.Filtered? || phase.Absent? || phase.Cleared? || phase.Inserted? || phase.Passed?
  }

  /** What an event adds: a row comes from a create that is about to commit, a create from its request, and
      what a drop has read from the row. */
  ghost predicate Accounts(st: TenantRaces.State, ev: TenantRaces.Event, st': TenantRaces.State) {
    && (forall id :: id in st'.tenants ==>
          || (id in st.tenants && SameRequest(st'.tenants[id], st.tenants[id]))
          || (ev.CommitCreate? && In(st, ev.p, Passed) && st.processes[ev.p].id == id
              && SameRequest(st'.tenants[id], st.processes[ev.p].tenant)))
    && (forall p :: p in st'.processes && Creating(st'.processes[p].phase) ==>
          || (p in st.processes && Creating(st.processes[p].phase) && st'.processes[p].id == st.processes[p].id
              && st'.processes[p].tenant == st.processes[p].tenant)
          || (ev.AskCreate? && ev.p == p && st'.processes[p].id == ev.id
              && SameRequest(st'.processes[p].tenant, ev.tenant)))
  }

  lemma {:induction false} LeaveAccounts(st: TenantRaces.State, ev: TenantRaces.Event, p: nat)
    ensures Accounts(st, ev, Leave(st, p))
  {
  }

  /** A process that goes on, with or without the row, is still the create or drop it was. */
  lemma {:induction false} EnterAccounts(st: TenantRaces.State, ev: TenantRaces.Event, p: nat, phase: Phase)
    requires p in st.processes && (Creating(phase) ==> Creating(st.processes[p].phase))
    ensures Accounts(st, ev, Enter(st, p, phase)) && Accounts(st, ev, Acquire(st, p, phase))
  {
  }

  lemma {:induction false} AskAccounts(st: TenantRaces.State, ev: TenantRaces.Event)
    ensures ev.AskCreate? ==> Accounts(st, ev, AskCreateStep(st, ev.p, ev.id, ev.tenant))
    ensures ev.AskDrop? ==> Accounts(st, ev, AskDropStep(st, ev.p, ev.id, ev.actor))
  {
  }

  lemma {:induction false} CommitAccounts(st: TenantRaces.State, ev: TenantRaces.Event)
    ensures ev.CommitCreate? ==> Accounts(st, ev, CommitCreateStep(st, ev.p))
    ensures ev.CommitDrop? ==> Accounts(st, ev, CommitDropStep(st, ev.p))
  {
  }

  lemma {:induction false} CreateAccounts(st: TenantRaces.State, ev: TenantRaces.Event)
    requires OfCreate(ev)
    ensures Accounts(st, ev, CreateStep(st, ev, true))
  {
    AskAccounts(st, ev);
    CommitAccounts(st, ev);
    LeaveAccounts(st, ev, ev.p);
    if ev.ReadTenant? && In(st, ev.p, Filtered) { EnterAccounts(st, ev, ev.p, Absent); }
    if ev.CheckTombstone? && In(st, ev.p, Inserted) { EnterAccounts(st, ev, ev.p, Passed); }
    if ev.InsertTenant? && In(st, ev.p, Absent) {
      EnterAccounts(st, ev, ev.p, Filtered);
      EnterAccounts(st, ev, ev.p, Inserted);
    }
  }

  lemma {:induction false} DropAccounts(st: TenantRaces.State, ev: TenantRaces.Event)
    requires !OfCreate(ev)
    ensures Accounts(st, ev, DropStep(st, ev))
  {
    AskAccounts(st, ev);
    CommitAccounts(st, ev);
    match ev
    case LockTenant(p) =>
      LeaveAccounts(st, ev, p);
      if In(st, p, Asked) && st.processes[p].id in st.tenants {
        EnterAccounts(st, ev, p, Locked(st.tenants[st.processes[p].id]));
      }
    case CheckDrop(p) =>
      LeaveAccounts(st, ev, p);
      if p in st.processes && st.processes[p].phase.Locked? {
        EnterAccounts(st, ev, p, Counted(st.processes[p].phase.row));
      }
    case Abort(p) => LeaveAccounts(st, ev, p);
    case _ =>
  }

  lemma {:induction false} RunAccounts(st: TenantRaces.State, ev: TenantRaces.Event)
    requires OfRun(ev)
    ensures Accounts(st, ev, RunStep(st, ev))
  {
  }

  lemma {:induction false} StepAccounts(st: TenantRaces.State, ev: TenantRaces.Event)
    ensures Accounts(st, ev, TenantRaces.Step(st, ev, true))
  {
    if OfCreate(ev) {
      CreateAccounts(st, ev);
    } else if OfRun(ev) {
      RunAccounts(st, ev);
    } else {
      DropAccounts(st, ev);
    }
  }

  ghost predicate AllAsked(events: seq<TenantRaces.Event>, st: TenantRaces.State) {
    && (forall id :: id in st.tenants ==> WasAsked(events, id, st.tenants[id]))
    && (forall p :: p in st.processes && Creating(st.processes[p].phase) ==>
          WasAsked(events, st.processes[p].id, st.processes[p].tenant))
  }

  lemma {:induction false} StillAsked(events: seq<TenantRaces.Event>, id: Id, t: Tenant, u: Tenant)
    requires events != [] && WasAsked(events[..|events| - 1], id, t) && SameRequest(u, t)
    ensures WasAsked(events, id, u)
  {
    var n := |events| - 1;
    var i :| 0 <= i < n && events[..n][i].AskCreate? && events[..n][i].id == id && SameRequest(events[..n][i].tenant, t);
    assert events[i] == events[..n][i];
  }

  lemma {:induction false} StepAsked(events: seq<TenantRaces.Event>, st: TenantRaces.State, st': TenantRaces.State)
    requires events != [] && AllAsked(events[..|events| - 1], st) && Accounts(st, events[|events| - 1], st')
    ensures AllAsked(events, st')
  {
    var ev := events[|events| - 1];
    forall id | id in st'.tenants ensures WasAsked(events, id, st'.tenants[id]) {
      if id in st.tenants && SameRequest(st'.tenants[id], st.tenants[id]) {
        StillAsked(events, id, st.tenants[id], st'.tenants[id]);
      } else {
        StillAsked(events, id, st.processes[ev.p].tenant, st'.tenants[id]);
      }
    }
    forall p | p in st'.processes && Creating(st'.processes[p].phase)
      ensures WasAsked(events, st'.processes[p].id, st'.processes[p].tenant)
    {
      if ev.AskCreate? && ev.p == p && st'.processes[p].id == ev.id && SameRequest(st'.processes[p].tenant, ev.tenant) {
        assert events[|events| - 1].AskCreate?;
      } else {
        StillAsked(events, st'.processes[p].id, st.processes[p].tenant, st'.processes[p].tenant);
      }
    }
  }

  /** In every state of every interleaving a tenant has the name, org and creator that a create of its id
      asked for. */
  lemma {:induction false} TenantsWereAsked(events: seq<TenantRaces.Event>)
    ensures AllAsked(events, TenantRaces.Reach(events, true))
  {
    if events != [] {
      var n := |events| - 1;
      TenantsWereAsked(events[..n]);
      StepAccounts(TenantRaces.Reach(events[..n], true), events[n]);
      StepAsked(events, TenantRaces.Reach(events[..n], true), TenantRaces.Reach(events, true));
    }
  }

  /** And so has the tombstone that its drop leaves, which names the drop's actor. */
  lemma {:induction false} TombstonesWereAsked(events: seq<TenantRaces.Event>, ev: TenantRaces.Event, id: Id)
    requires id !in TenantRaces.Reach(events, true).tombstones
    requires id in TenantRaces.Step(TenantRaces.Reach(events, true), ev, true).tombstones
    ensures var tomb := TenantRaces.Step(TenantRaces.Reach(events, true), ev, true).tombstones[id];
            WasAsked(events, id, Tenant(tomb.name, tomb.org, tomb.creator, true))
  {
    DropRecordsTheRow(events, ev, id);
    TenantsWereAsked(events);
    var st := TenantRaces.Reach(events, true);
    var i :| 0 <= i < |events| && events[i].AskCreate? && events[i].id == id && SameRequest(events[i].tenant, st.tenants[id]);
    assert SameRequest(events[i].tenant, Tenant(st.tenants[id].name, st.tenants[id].org, st.tenants[id].creator, true));
  }
}
