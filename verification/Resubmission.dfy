/** What a rebuild makes possible again, because it does not read what the dispatcher logged: exactly
    which work orders can be claimed once more, and exactly when two open microtasks are the same. */
module Resubmission {
  import opened Wrappers
  import opened Domain
  import opened EventStore
  import opened StoreInvariant
  import opened Microtasks
  import opened ControlPlane
  import opened SystemInvariant
  import opened Safety
  import opened Transitions
  import opened Generation
  import Refinement

  lemma RunSnoc(steps: seq<Step>, st: Step)
    ensures Run(steps + [st]) == Next(Run(steps), st)
  {
    hide ControlPlane.Next;
    assert (steps + [st])[..|steps|] == steps;
  }

  // ----- Claiming again -----

  /** However a run goes on, the log is only added to, and work orders keep their tasks. */
  lemma {:induction false} RunGoesOn(steps: seq<Step>, more: seq<Step>)
    ensures var s, s' := Run(steps).store, Run(steps + more).store;
            s.log <= s'.log && TasksKept(s.tables.orders, s'.tables.orders)
  {
    hide ControlPlane.Next, SystemInvariant.SystemInv, VolatileOver;
    if more == [] {
      assert steps + more == steps;
    } else {
      var n := |more| - 1;
      RunGoesOn(steps, more[..n]);
      assert steps + more == steps + more[..n] + [more[n]];
      RunSnoc(steps + more[..n], more[n]);
      RunInv(steps + more[..n]);
      StepExtendsLog(Run(steps + more[..n]), more[n]);
      TableKeepsVolatile(Run(steps + more[..n]), more[n]);
    }
  }

  /** A listing after a rebuild shows every gated work order that was never up for approval. */
  lemma ListedAgain(steps: seq<Step>, id: Id)
    requires var s := Run(steps).store; id in s.tables.orders && GateOpen(s.tables.orders[id].task) && !Challenged(s.log, id)
    ensures var s := Run(steps + [RebuildStep] + [ListStep]);
            && id in s.store.tables.orders && s.store.tables.orders[id] in s.listed
            && s.store.tables.orders[id].id == id && s.store.tables.orders[id].status == Status.Submitted
  {
    hide ControlPlane.Next, SystemInvariant.SystemInv, StoreInvariant.StoreInv, GateOpen, EventStore.Rebuild;
    RunInv(steps);
    RebuildResubmitsExactly(steps, id);
    RebuildTasks(Run(steps).store);
    RunSnoc(steps, RebuildStep);
    RebuiltStore(Run(steps));
    RunInv(steps + [RebuildStep]);
    RunSnoc(steps + [RebuildStep], ListStep);
    ListedStoreIsSame(Run(steps + [RebuildStep]));
    ListShows(Run(steps + [RebuildStep]), id);
  }

  lemma RebuiltStore(s: System)
    ensures Next(s, RebuildStep).store == Rebuild(s.store)
  {
    hide EventStore.Rebuild;
  }

  lemma ListShows(s: System, id: Id)
    requires id in s.store.tables.orders && IsAutoDispatchable(s.store.tables.orders[id])
    ensures s.store.tables.orders[id] in Next(s, ListStep).listed
  {
    hide IsAutoDispatchable;
  }

  lemma ListedIsClaimed(s: System, pick: OrderData)
    requires pick in s.listed && pick.id in s.store.tables.orders
    requires s.store.tables.orders[pick.id].status == Status.Submitted
    ensures Claims(s, ClaimStep(pick, "", 0, 0, 2))
  {
    var rs := ClaimRecords(s.store.tables, pick.id, "", 0, 0);
    assert rs[..2] == rs;
  }

  /** Whatever became of a work order, the run can go on so that it is claimed (once more), if and
      only if its task passes the dispatch gate and it was never put up for approval. */
  lemma ClaimableExactly(steps: seq<Step>, id: Id)
    requires id in Run(steps).store.tables.orders
    ensures var s := Run(steps).store;
            (exists more, st: Step :: st.ClaimStep? && st.pick.id == id && Claims(Run(steps + more), st)) <==>
            GateOpen(s.tables.orders[id].task) && !Challenged(s.log, id)
  {
    hide ControlPlane.Next, ControlPlane.Run, SystemInvariant.SystemInv, StoreInvariant.Challenged, GateOpen, Claims;
    var s := Run(steps).store;
    if more: seq<Step>, st: Step :| st.ClaimStep? && st.pick.id == id && Claims(Run(steps + more), st) {
      ClaimIsOfUnchallenged(steps, more, st);
    }
    if GateOpen(s.tables.orders[id].task) && !Challenged(s.log, id) {
      ListedAgain(steps, id);
      var more := [RebuildStep, ListStep];
      assert steps + [RebuildStep] + [ListStep] == steps + more;
      var pick := Run(steps + more).store.tables.orders[id];
      ListedIsClaimed(Run(steps + more), pick);
      assert Claims(Run(steps + more), ClaimStep(pick, "", 0, 0, 2));
    }
  }

  lemma ClaimIsOfUnchallenged(steps: seq<Step>, more: seq<Step>, st: Step)
    requires st.ClaimStep? && Claims(Run(steps + more), st) && st.pick.id in Run(steps).store.tables.orders
    ensures var s := Run(steps).store; GateOpen(s.tables.orders[st.pick.id].task) && !Challenged(s.log, st.pick.id)
  {
    hide ControlPlane.Next, ControlPlane.Run, SystemInvariant.SystemInv, StoreInvariant.Challenged, GateOpen;
    var s := Run(steps).store;
    RunGoesOn(steps, more);
    RunInv(steps + more);
    ClaimEffect(Run(steps + more), st);
    ClaimsAreOfUnchallengedOrders(steps + more, st);
    if Challenged(s.log, st.pick.id) {
      ChallengedStays(s.log, Run(steps + more).store.log, st.pick.id);
    }
  }

  // ----- Open again -----

  lemma {:induction false} DecisionsAreCounted(log: seq<Event>, id: Id, i: nat)
    requires i < |log| && IsDecision(log[i], id)
    ensures Decisions(log, id) >= 1
    ensures forall j | 0 <= j < |log| && j != i && IsDecision(log[j], id) :: Decisions(log, id) >= 2
  {
    var n := |log| - 1;
    if i < n {
      DecisionsAreCounted(log[..n], id, i);
    }
    forall j | 0 <= j < |log| && j != i && IsDecision(log[j], id)
      ensures Decisions(log, id) >= 2
    {
      if i == n {
        DecisionsAreCounted(log[..n], id, j);
      }
    }
  }

  /** A rebuilt work order is closed exactly when the log holds its rejection. */
  lemma RebuiltIsOpenExactly(steps: seq<Step>, id: Id)
    requires id in Run(steps).store.tables.orders
    ensures var s := Run(steps).store;
            && id in Rebuild(s).tables.orders
            && (Open(Rebuild(s).tables.orders[id]) <==> !DecidedAs(s.log, id, Status.Failed))
  {
    hide ControlPlane.Next, ControlPlane.Run, EventStore.Rebuild;
    RunInv(steps);
    var s := Run(steps).store;
    RebuiltOrders(s);
    ReplayedIsOpenExactly(s.tables, s.log, Replay(s.log).orders, id);
  }

  lemma RebuiltOrders(s: Store)
    requires StoreInv(s)
    ensures Rebuild(s).tables.orders == Replay(s.log).orders && Parts(s.tables, s.log, Replay(s.log).orders)
  {
    hide EventStore.Rebuild;
    Refinement.RebuildKeepsFamilies(s);
  }

  lemma ReplayedIsOpenExactly(t: Tables, log: seq<Event>, replayed: map<Id, OrderData>, id: Id)
    requires Parts(t, log, replayed) && id in t.orders
    ensures id in replayed && (Open(replayed[id]) <==> !DecidedAs(log, id, Status.Failed))
  {
    hide StoreInvariant.ApprovalsInv, StoreInvariant.ChallengesInv, StoreInvariant.ChallengedInv,
         StoreInvariant.CompletionsInv, StoreInvariant.Decisions;
    if DecidedAs(log, id, Status.Failed) {
      var i :| 0 <= i < |log| && IsDecision(log[i], id) && log[i].order.status == Status.Failed;
      DecisionsAreCounted(log, id, i);
      var j :| 0 <= j < |log| && IsDecision(log[j], id) && log[j].order.status == replayed[id].status;
      assert i == j;
    }
  }

  /** Two open microtasks are of the same entry and repository. */
  ghost predicate Duplicates(o: map<Id, OrderData>) {
    exists a, b | a in o && b in o && a != b :: OpenMicrotask(o[a]) && OpenMicrotask(o[b]) && SameWork(o[a], o[b])
  }

  /** Two microtasks that were not rejected, open or finished, are of the same entry and repository. */
  ghost predicate Repeats(s: Store) {
    var o := s.tables.orders;
    exists a, b | a in o && b in o && a != b ::
      && IsMicrotask(o[a].task) && IsMicrotask(o[b].task) && SameWork(o[a], o[b])
      && !DecidedAs(s.log, a, Status.Failed) && !DecidedAs(s.log, b, Status.Failed)
  }

  lemma PairReopens(steps: seq<Step>, a: Id, b: Id)
    requires var o := Run(steps).store.tables.orders; a in o && b in o
    ensures var s := Run(steps).store; var o, o' := s.tables.orders, Rebuild(s).tables.orders;
            && a in o' && b in o'
            && (OpenMicrotask(o'[a]) && OpenMicrotask(o'[b]) && SameWork(o'[a], o'[b]) <==>
                && IsMicrotask(o[a].task) && IsMicrotask(o[b].task) && SameWork(o[a], o[b])
                && !DecidedAs(s.log, a, Status.Failed) && !DecidedAs(s.log, b, Status.Failed))
  {
    hide ControlPlane.Next, ControlPlane.Run, EventStore.Rebuild, StoreInvariant.StoreInv, StoreInvariant.DecidedAs,
         IsMicrotask, MicrotaskId, Cwd, VolatileInv, Open;
    RunInv(steps);
    RebuildTasks(Run(steps).store);
    RebuiltIsOpenExactly(steps, a);
    RebuiltIsOpenExactly(steps, b);
  }

  /** A rebuild leaves two open duplicates if and only if two microtasks that were not rejected are of
      the same entry and repository: finished ones count, because they open again. */
  lemma RebuildDuplicatesExactly(steps: seq<Step>)
    ensures var s := Run(steps).store; Duplicates(Rebuild(s).tables.orders) <==> Repeats(s)
  {
    hide ControlPlane.Next, ControlPlane.Run, EventStore.Rebuild, StoreInvariant.StoreInv, StoreInvariant.DecidedAs,
         OpenMicrotask, SameWork, IsMicrotask, VolatileInv;
    var s := Run(steps).store;
    var o, o' := s.tables.orders, Rebuild(s).tables.orders;
    RunInv(steps);
    RebuildTasks(s);
    if Duplicates(o') {
      var a, b :| a in o' && b in o' && a != b && OpenMicrotask(o'[a]) && OpenMicrotask(o'[b]) && SameWork(o'[a], o'[b]);
      PairReopens(steps, a, b);
    }
    if Repeats(s) {
      var a, b :| a in o && b in o && a != b && IsMicrotask(o[a].task) && IsMicrotask(o[b].task) && SameWork(o[a], o[b])
                  && !DecidedAs(s.log, a, Status.Failed) && !DecidedAs(s.log, b, Status.Failed);
      PairReopens(steps, a, b);
    }
  }
}
