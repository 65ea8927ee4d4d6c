/** Which status changes the system persists: exactly the edges of the work-order transition
    relation, except where a write-back made from a claim-time snapshot meets an approval. */
module Transitions {
  import opened Wrappers
  import opened Domain
  import opened EventStore
  import opened StoreInvariant
  import opened Microtasks
  import opened ControlPlane
  import opened SystemInvariant
  import opened Safety

  // ----- The log only grows -----

  lemma {:induction false} CommitAllExtendsLog(s: Store, rs: seq<Record>)
    ensures s.log <= CommitAll(s, rs).log
  {
    if rs != [] {
      CommitAllExtendsLog(s, rs[..|rs| - 1]);
    }
  }

  lemma StepExtendsLog(s: System, st: Step)
    ensures s.store.log <= Next(s, st).store.log
  {
    if !st.RebuildStep? {
      CommitAllExtendsLog(s.store, StepRecords(s, st));
    }
  }

  lemma ChallengedStays(log: seq<Event>, log': seq<Event>, id: Id)
    requires log <= log' && Challenged(log, id)
    ensures Challenged(log', id)
  {
    var i :| 0 <= i < |log| && IsChallenge(log[i], id);
    assert log'[i] == log[i];
  }

  // ----- Claims in flight -----

  /** A claimed work order is still Leased, unless it was put up for approval meanwhile. */
  ghost predicate InFlightInv(s: System) {
    var o := s.store.tables.orders;
    forall n | n in s.tickets ::
      n < |s.won| && s.won[n] in o && (o[s.won[n]].status == Status.Leased || Challenged(s.store.log, s.won[n]))
  }

  predicate Closing(r: Record) {
    r.PutOrder? && (r.name.MicrotaskCompleted? || r.name.MicrotaskFailed?)
  }

  lemma ClosingAttempts(s: System, st: Step, r: Record)
    requires r in Attempt(s, st) && Closing(r)
    ensures st.FinishStep? && st.serial in s.tickets && s.tickets[st.serial].started
    ensures r.order.id == s.tickets[st.serial].order.id
  {
  }

  /** Closing write-backs come from the sweep that holds the claim. */
  lemma ClosingComesFromItsTicket(s: System, st: Step)
    requires var w := Written(StepRecords(s, st)); w.Some? && Closing(w.value)
    ensures st.FinishStep? && st.serial in s.tickets && s.tickets[st.serial].started
    ensures Written(StepRecords(s, st)).value.order.id == s.tickets[st.serial].order.id
    ensures Next(s, st).tickets == s.tickets - {st.serial}
  {
    WrittenIsARecord(StepRecords(s, st));
    AttemptWritesOneOrder(s, st);
    ClosingAttempts(s, st, Written(StepRecords(s, st)).value);
  }

  /** Without rebuilds a work order is claimed once, so two tickets are for two work orders. */
  lemma TicketsAreForDifferentOrders(won: seq<Id>, m: nat, n: nat)
    requires m < |won| && n < |won| && m != n && Wins(won, won[m]) <= 1
    ensures won[m] != won[n]
  {
    if won[m] == won[n] {
      WinsAsPositions(won, won[m]);
      SubsetIsSmaller({m, n}, Positions(won, won[m]));
    }
  }

  lemma WinsAtMostOnce(s: System, id: Id)
    requires SystemInv(s) && s.rebuilds == 0
    ensures Wins(s.won, id) <= 1
  {
    assert WinsInv(s.store.tables.orders, s.won, s.rebuilds);
  }

  lemma AwaitingRowIsChallenged(t: Tables, log: seq<Event>, replayed: map<Id, OrderData>, id: Id)
    requires Parts(t, log, replayed) && id in t.orders && t.orders[id].status == Status.AwaitingApproval
    ensures Challenged(log, id)
  {
  }

  /** What a step does to a claimed work order that it does not close. */
  lemma ClaimedRowAfterStep(s: System, st: Step, n: nat)
    requires SystemInv(s) && InFlightInv(s) && s.rebuilds == 0 && !st.RebuildStep?
    requires n in s.tickets && n in Next(s, st).tickets
    ensures var s' := Next(s, st); var id := s.won[n];
            && id in s'.store.tables.orders
            && (s'.store.tables.orders[id].status == Status.Leased || Challenged(s'.store.log, id))
  {
    hide ControlPlane.Next, ControlPlane.StepRecords, ControlPlane.Attempt, SystemInvariant.SystemInv,
         StoreInvariant.Challenged;
    var s', id := Next(s, st), s.won[n];
    StepWrites(s, st);
    StepExtendsLog(s, st);
    var w := Written(StepRecords(s, st));
    if Challenged(s.store.log, id) {
      ChallengedStays(s.store.log, s'.store.log, id);
    } else if w.Some? && w.value.order.id == id {
      if w.value.name.OrderAwaitingApproval? {
        StepKeepsInv(s, st);
        SystemStoreInv(s');
        AwaitingRowIsChallenged(s'.store.tables, s'.store.log, Replay(s'.store.log).orders, id);
      } else {
        ClosingComesFromItsTicket(s, st);
        TicketIsForTheWonOrder(s, st.serial);
        WinsAtMostOnce(s, id);
        TicketsAreForDifferentOrders(s.won, n, st.serial);
      }
    }
  }

  lemma NewTicketIsLeased(s: System, st: Step, n: nat)
    requires SystemInv(s) && n !in s.tickets && n in Next(s, st).tickets
    ensures var s' := Next(s, st);
            n < |s'.won| && s'.won[n] in s'.store.tables.orders && s'.store.tables.orders[s'.won[n]].status == Status.Leased
  {
    TicketsComeFromClaims(s, st, n);
    ClaimEffect(s, st);
  }

  lemma TicketsComeFromClaims(s: System, st: Step, n: nat)
    requires n !in s.tickets && n in Next(s, st).tickets
    ensures Claims(s, st) && n == |s.won|
  {
  }

  lemma WonOnlyGrows(s: System, st: Step)
    ensures s.won <= Next(s, st).won
  {
  }

  lemma StepKeepsInFlight(s: System, st: Step)
    requires SystemInv(s) && InFlightInv(s) && s.rebuilds == 0 && !st.RebuildStep?
    ensures InFlightInv(Next(s, st))
  {
    var s' := Next(s, st);
    WonOnlyGrows(s, st);
    forall n | n in s'.tickets
      ensures n < |s'.won| && s'.won[n] in s'.store.tables.orders
      ensures s'.store.tables.orders[s'.won[n]].status == Status.Leased || Challenged(s'.store.log, s'.won[n])
    {
      if n in s.tickets {
        ClaimedRowAfterStep(s, st, n);
      } else {
        NewTicketIsLeased(s, st, n);
      }
    }
  }

  lemma {:induction false} RunInFlight(steps: seq<Step>)
    requires !Rebuilds(steps)
    ensures InFlightInv(Run(steps))
  {
    if steps != [] {
      var n := |steps| - 1;
      assert forall i :: 0 <= i < n ==> steps[..n][i] == steps[i];
      RunInFlight(steps[..n]);
      RunInv(steps[..n]);
      RebuildsAreCounted(steps[..n]);
      StepKeepsInFlight(Run(steps[..n]), steps[n]);
    }
  }

  // ----- Status changes -----

  /** The step completes `id` from a snapshot although the work order was put up for approval after
      the claim, and has not been approved since. */
  ghost predicate OverridesApproval(s: System, st: Step, id: Id) {
    && st.FinishStep? && st.serial in s.tickets && s.tickets[st.serial].order.id == id
    && (var w := Written(StepRecords(s, st)); w.Some? && w.value.PutOrder? && w.value.name.MicrotaskCompleted?)
    && id in s.store.tables.orders
    && Challenged(s.store.log, id) && s.store.tables.orders[id].status != Status.Approved
  }

  lemma StatusOfWrite(t: Tables, name: OrderEvent, o: OrderData)
    requires OrderAllowed(t, name, o) && o.id in t.orders && !name.MicrotaskCompleted?
    ensures Edge(t.orders[o.id].status, o.status)
  {
  }

  /** A claimed row is not Leased once the work order was put up for approval. */
  lemma ChallengedRowIsNotLeased(t: Tables, log: seq<Event>, replayed: map<Id, OrderData>, id: Id)
    requires Parts(t, log, replayed) && id in t.orders && Challenged(log, id)
    ensures t.orders[id].status !in {Status.Submitted, Status.Leased}
  {
  }

  lemma StepChangesStatusByEdge(s: System, st: Step, id: Id)
    requires SystemInv(s) && InFlightInv(s) && !st.RebuildStep?
    requires id in s.store.tables.orders && id in Next(s, st).store.tables.orders
    ensures var a, b := s.store.tables.orders[id].status, Next(s, st).store.tables.orders[id].status;
            a != b ==> (Edge(a, b) <==> !OverridesApproval(s, st, id))
  {
    hide ControlPlane.Next, ControlPlane.StepRecords, ControlPlane.Attempt, SystemInvariant.SystemInv,
         StoreInvariant.Challenged;
    StepWrites(s, st);
    var w := Written(StepRecords(s, st));
    if w.Some? && w.value.order.id == id {
      if w.value.name.MicrotaskCompleted? {
        ClosingComesFromItsTicket(s, st);
        TicketIsForTheWonOrder(s, st.serial);
        SystemStoreInv(s);
        if Challenged(s.store.log, id) {
          ChallengedRowIsNotLeased(s.store.tables, s.store.log, Replay(s.store.log).orders, id);
        }
      } else {
        StatusOfWrite(s.store.tables, w.value.name, w.value.order);
      }
    }
  }

  /** In a run without rebuild, every persisted status change is an edge of the transition relation
      if and only if it is not a completion written over an approval begun since the claim. */
  lemma StatusChangesAreEdgesExactly(steps: seq<Step>, st: Step, id: Id)
    requires !Rebuilds(steps) && !st.RebuildStep? && id in Run(steps).store.tables.orders
    ensures var s := Run(steps); var s' := Next(s, st);
            && id in s'.store.tables.orders
            && var a, b := s.store.tables.orders[id].status, s'.store.tables.orders[id].status;
               a != b ==> (Edge(a, b) <==> !OverridesApproval(s, st, id))
  {
    RunInv(steps);
    RunInFlight(steps);
    StepMovesOrders(Run(steps), st);
    StepChangesStatusByEdge(Run(steps), st, id);
  }

  /** The claim itself is never made of a work order that was put up for approval: only a challenge
      created between claim and write-back leads to an override. */
  lemma ClaimsAreOfUnchallengedOrders(steps: seq<Step>, st: Step)
    requires Claims(Run(steps), st)
    ensures !Challenged(Run(steps).store.log, st.pick.id)
  {
    RunInv(steps);
    var s := Run(steps);
    ClaimEffect(s, st);
    if Challenged(s.store.log, st.pick.id) {
      ChallengedRowIsNotLeased(s.store.tables, s.store.log, Replay(s.store.log).orders, st.pick.id);
    }
  }
}
