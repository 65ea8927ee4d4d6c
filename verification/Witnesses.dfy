/** Runs that show why the provisos of the safety theorems are needed. */
module Witnesses {
  import opened Wrappers
  import opened Domain
  import opened EventStore
  import opened Refinement
  import opened StoreInvariant
  import opened Microtasks
  import opened ControlPlane
  import opened SystemInvariant
  import opened Safety
  import opened Transitions
  import opened Generation
  import opened Resubmission
  import Json

  const PLAN := Definition("jankurai.repo-refresh-audit", "audit", "", "jankurai.proof", Json.Null, Json.Null,
                           1, 1, true, None, false)
  const PLAIN := Overrides(None, None, None, None, None, None, None, None, None, None, None)
  const TICK := Generation(PLAN, PLAIN)
  const AT := Surroundings("", [])

  /** The task that a generator tick submits. */
  function Gated(): Task {
    Task(PLAN.workOrderKind, match Payload(PLAN, PLAIN, None, AT) case Success(v) => v case Failure(_) => Json.Null)
  }

  const DIGEST := Evidence("stub.digest", "sha256:deadbeef", 0)

  lemma GatedPassesGate()
    ensures Payload(PLAN, PLAIN, None, AT).Success?
    ensures GateOpen(Gated()) && MicrotaskId(Gated()) == Some(PLAN.id) && Cwd(Gated()) == Some(".")
  {
    hide Microtasks.Base, GateOpen, MicrotaskId, Cwd;
    AcceptedPayloadPassesGate(PLAN, PLAIN, None, AT);
  }

  lemma RunSnoc(steps: seq<Step>, st: Step)
    ensures Run(steps + [st]) == Next(Run(steps), st)
  {
    assert (steps + [st])[..|steps|] == steps;
  }

  /** Work order 1 alone is in the table, as `status`, for the generated task. */
  ghost predicate One(s: System, status: Status) {
    var o := s.store.tables.orders;
    1 in o && o.Keys == {1} && o[1].id == 1 && o[1].status == status && o[1].task == Gated()
  }

  /** The histories are those of `s`. */
  ghost predicate SameHistory(s: System, s': System) {
    s'.won == s.won && s'.starts == s.starts && s'.rebuilds == s.rebuilds
  }

  lemma Checking(s: System)
    requires forall id | id in s.store.tables.orders :: !Open(s.store.tables.orders[id])
    ensures var s' := Next(s, CheckStep(TICK));
            s'.store == s.store && s'.pending == Some(TICK) && SameHistory(s, s') && s'.tickets == s.tickets
  {
  }

  lemma Enqueuing(s: System, id: Id)
    requires s.pending == Some(TICK) && id != NIL && id !in s.store.tables.orders
    ensures var s' := Next(s, EnqueueStep(id, AT, 0, 1));
            && SameHistory(s, s')
            && id in s'.store.tables.orders
            && s'.store.tables.orders == s.store.tables.orders[id := s'.store.tables.orders[id]]
            && s'.store.log == s.store.log + [OrderLogged(OrderSubmitted, s'.store.tables.orders[id])]
            && s'.store.tables.challenges == s.store.tables.challenges
            && (var o := s'.store.tables.orders[id]; o.id == id && o.status == Status.Submitted && o.task == Gated())
  {
    GatedPassesGate();
    hide Payload, GateOpen, MicrotaskId, Cwd;
    var st := EnqueueStep(id, AT, 0, 1);
    var r := SubmitRecords(id, PLAN.subject, Gated(), 0)[0];
    assert StepRecords(s, st) == [r];
    CommitAllOne(s.store, r);
  }

  lemma Listing(s: System)
    requires One(s, Status.Submitted)
    ensures var s' := Next(s, ListStep);
            s'.store == s.store && s.store.tables.orders[1] in s'.listed && SameHistory(s, s')
  {
    hide Gated, GateOpen;
    GatedPassesGate();
  }

  lemma Claiming(s: System, pick: OrderData)
    requires SystemInv(s) && One(s, Status.Submitted)
    requires pick == s.store.tables.orders[1] && pick in s.listed
    ensures var s' := Next(s, ClaimStep(pick, "jankurai", 900, 0, 2));
            && One(s', Status.Leased)
            && s'.won == s.won + [1] && s'.starts == s.starts && s'.rebuilds == s.rebuilds
            && |s.won| in s'.tickets && !s'.tickets[|s.won|].started
  {
    hide SystemInvariant.SystemInv, EventStore.CommitAll, Json.Get, Gated, GateOpen;
    var st := ClaimStep(pick, "jankurai", 900, 0, 2);
    assert ClaimRecords(s.store.tables, 1, "jankurai", 900, 0) != [];
    ClaimShape(s.store.tables, 1, "jankurai", 900, 0);
    assert Claims(s, st);
    ClaimEffect(s, st);
  }

  lemma Starting(s: System, n: nat)
    requires n in s.tickets && !s.tickets[n].started
    ensures var s' := Next(s, StartStep(n));
            && s'.store == s.store && s'.won == s.won && s'.rebuilds == s.rebuilds
            && s'.starts == s.starts + [n] && n in s'.tickets && s'.tickets[n].started
  {
  }

  /** Listing, claiming and starting a submitted work order works in any reachable state. */
  lemma Sweeping(steps: seq<Step>) returns (more: seq<Step>)
    requires One(Run(steps), Status.Submitted)
    ensures Rebuilds(more) <==> Rebuilds(steps)
    ensures (forall i | 0 <= i < |steps| :: OnlyGenerated(steps[i])) ==> forall i | 0 <= i < |more| :: OnlyGenerated(more[i])
    ensures var s, s' := Run(steps), Run(more);
            && One(s', Status.Leased) && s'.rebuilds == s.rebuilds
            && s'.won == s.won + [1] && s'.starts == s.starts + [|s.won|]
            && |s.won| in s'.tickets && s'.tickets[|s.won|].started
            && s'.store.tables.challenges == s.store.tables.challenges
  {
    hide ControlPlane.Next, SystemInvariant.SystemInv, Gated;
    var s := Run(steps);
    var listed := Next(s, ListStep);
    var pick := s.store.tables.orders[1];
    var claim, start := ClaimStep(pick, "jankurai", 900, 0, 2), StartStep(|s.won|);
    RunInv(steps);
    StepKeepsInv(s, ListStep);
    Listing(s);
    Claiming(listed, pick);
    StepKeepsChallenges(listed, claim);
    Starting(Next(listed, claim), |s.won|);
    more := steps + [ListStep] + [claim] + [start];
    RunSnoc(steps, ListStep);
    RunSnoc(steps + [ListStep], claim);
    RunSnoc(steps + [ListStep] + [claim], start);
    assert forall i :: 0 <= i < |steps| ==> more[i] == steps[i];
  }

  /** The first sweep over a freshly submitted work order. */
  lemma FirstSweep() returns (steps: seq<Step>)
    ensures !Rebuilds(steps) && forall i | 0 <= i < |steps| :: OnlyGenerated(steps[i])
    ensures var s := Run(steps);
            && One(s, Status.Leased) && s.rebuilds == 0 && s.won == [1] && s.starts == [0]
            && 0 in s.tickets && s.tickets[0].started
            && s.store.tables.challenges == map[]
  {
    hide ControlPlane.Next, SystemInvariant.SystemInv, Gated;
    var check, first := CheckStep(TICK), EnqueueStep(1, AT, 0, 1);
    Checking(INITIAL);
    Enqueuing(Next(INITIAL, check), 1);
    RunSnoc([], check);
    RunSnoc([check], first);
    assert [] + [check] == [check] && [check] + [first] == [check, first];
    steps := Sweeping([check, first]);
  }

  // ----- A rebuild between two sweeps -----

  lemma LeasedIsUnchallenged(s: System)
    requires SystemInv(s) && One(s, Status.Leased)
    ensures !Challenged(s.store.log, 1)
  {
    if Challenged(s.store.log, 1) {
      ChallengedRowIsNotLeased(s.store.tables, s.store.log, Replay(s.store.log).orders, 1);
    }
  }

  const FINISH := FinishStep(0, Produced([DIGEST]), 1, 1)

  /** The write-back completes work order 1, whatever its row says by then. */
  lemma Completing(s: System, status: Status)
    requires One(s, status) && 0 in s.tickets && s.tickets[0].started
    requires var o := s.tickets[0].order; o.id == 1 && o.status == Status.Leased && o.task == Gated()
    ensures var s' := Next(s, FINISH);
            && One(s', Status.Completed) && SameHistory(s, s')
            && s'.store.log == s.store.log + [OrderLogged(MicrotaskCompleted, s'.store.tables.orders[1])]
  {
    hide Gated;
    var rs := FinishRecords(s.tickets[0].order, FINISH.ran, FINISH.now);
    assert StepRecords(s, FINISH) == [rs[0]];
    CommitAllOne(s.store, rs[0]);
  }

  /** The first sweep, to its end. */
  lemma Finishing() returns (steps: seq<Step>)
    ensures forall i | 0 <= i < |steps| :: OnlyGenerated(steps[i])
    ensures var s := Run(steps);
            && One(s, Status.Completed) && s.won == [1] && s.starts == [0] && s.rebuilds == 0
            && !Challenged(s.store.log, 1)
  {
    hide ControlPlane.Next, SystemInvariant.SystemInv, StoreInvariant.Challenged, Gated;
    var claimed := FirstSweep();
    RunInv(claimed);
    TicketIsForTheWonOrder(Run(claimed), 0);
    LeasedIsUnchallenged(Run(claimed));
    Completing(Run(claimed), Status.Leased);
    steps := claimed + [FINISH];
    RunSnoc(claimed, FINISH);
    ChallengedSnoc(Run(claimed).store.log, OrderLogged(MicrotaskCompleted, Run(steps).store.tables.orders[1]), 1);
  }

  lemma RebuildStepEffect(s: System)
    ensures var s' := Next(s, RebuildStep);
            && s'.store == Rebuild(s.store)
            && s'.won == s.won && s'.starts == s.starts && s'.rebuilds == s.rebuilds + 1
  {
  }

  lemma RowsCarryTheirId(s: Store, id: Id)
    requires StoreInv(s) && id in s.tables.orders
    ensures s.tables.orders[id].id == id
  {
  }

  lemma Rebuilding(steps: seq<Step>)
    requires One(Run(steps), Status.Completed) && !Challenged(Run(steps).store.log, 1)
    ensures var s, s' := Run(steps), Run(steps + [RebuildStep]);
            One(s', Status.Submitted) && s'.won == s.won && s'.starts == s.starts && s'.rebuilds == s.rebuilds + 1
  {
    hide ControlPlane.Next, ControlPlane.Run, StoreInvariant.StoreInv, EventStore.Rebuild, Gated;
    RunInv(steps);
    RebuildResubmitsExactly(steps, 1);
    RebuildTasks(Run(steps).store);
    RebuildKeepsInv(Run(steps).store);
    RowsCarryTheirId(Rebuild(Run(steps).store), 1);
    RebuildStepEffect(Run(steps));
    RunSnoc(steps, RebuildStep);
  }

  /** A rebuild after the microtask was finished lets the executor run it a second time. */
  lemma RebuildRunsTwice() returns (steps: seq<Step>)
    ensures var s := Run(steps); s.rebuilds == 1 && s.starts == [0, 1] && s.won == [1, 1]
  {
    hide ControlPlane.Next, SystemInvariant.SystemInv, StoreInvariant.Challenged, Gated;
    var finished := Finishing();
    Rebuilding(finished);
    steps := Sweeping(finished + [RebuildStep]);
  }

  // ----- A rebuild after a second tick -----

  lemma NewOrderIsUnchallenged(s: System, id: Id)
    requires SystemInv(s) && id !in s.store.tables.orders
    ensures !Challenged(s.store.log, id)
  {
    assert ChallengedInv(s.store.log, Replay(s.store.log).orders);
    assert OrdersInv(s.store.tables.orders, Replay(s.store.log).orders);
  }

  /** A second tick finds the first microtask finished and submits another; the rebuild opens the
      first again. */
  lemma RebuildDuplicates() returns (steps: seq<Step>)
    ensures forall i | 0 <= i < |steps| :: OnlyGenerated(steps[i])
    ensures NoDuplicates(Run(steps)) && Duplicates(Next(Run(steps), RebuildStep).store.tables.orders)
  {
    hide ControlPlane.Next, SystemInvariant.SystemInv, StoreInvariant.Challenged, Gated, OnlyGenerated, EventStore.Rebuild;
    var finished := Finishing();
    var check, second := CheckStep(TICK), EnqueueStep(2, AT, 0, 1);
    TickIsGenerated();
    Checking(Run(finished));
    RunSnoc(finished, check);
    RunInv(finished + [check]);
    Enqueuing(Run(finished + [check]), 2);
    NewOrderIsUnchallenged(Run(finished + [check]), 2);
    steps := finished + [check] + [second];
    RunSnoc(finished + [check], second);
    var log, o := Run(finished).store.log, Run(steps).store.tables.orders;
    ChallengedSnoc(log, OrderLogged(OrderSubmitted, o[2]), 1);
    ChallengedSnoc(log, OrderLogged(OrderSubmitted, o[2]), 2);
    BothOpenAgain(steps);
    NeverTwoOpenDuplicates(steps);
    RebuildStepEffect(Run(steps));
  }

  lemma TickIsGenerated()
    ensures OnlyGenerated(CheckStep(TICK)) && OnlyGenerated(EnqueueStep(2, AT, 0, 1))
  {
  }

  lemma BothOpenAgain(steps: seq<Step>)
    requires var s := Run(steps).store; var o := s.tables.orders;
             && 1 in o && 2 in o && o[1].task == Gated() && o[2].task == Gated()
             && !Challenged(s.log, 1) && !Challenged(s.log, 2)
    ensures Duplicates(Rebuild(Run(steps).store).tables.orders)
  {
    hide ControlPlane.Next, ControlPlane.Run, SystemInvariant.VolatileInv, StoreInvariant.StoreInv, EventStore.Rebuild, Gated,
         Json.Get, MicrotaskId, Cwd;
    GatedPassesGate();
    RunInv(steps);
    RebuildTasks(Run(steps).store);
    RebuildResubmitsExactly(steps, 1);
    RebuildResubmitsExactly(steps, 2);
    var o := Rebuild(Run(steps).store).tables.orders;
    assert OpenMicrotask(o[1]) && OpenMicrotask(o[2]) && SameWork(o[1], o[2]);
  }

  // ----- A challenge between claim and write-back -----

  const CHALLENGE := CreateCall(1, "telegram:user:42", Telegram, Some(42), Some(99), 900, 7, "sha256:", 0, 0)

  lemma Challenging(s: System)
    requires One(s, Status.Leased) && 7 !in s.store.tables.challenges
    ensures var s' := Next(s, CreateStep(CHALLENGE, 3));
            One(s', Status.AwaitingApproval) && s'.tickets == s.tickets && s'.won == s.won
  {
    hide Gated, EventStore.CommitAll;
    var rs := CreateRecords(s.store.tables, CHALLENGE);
    assert StepRecords(s, CreateStep(CHALLENGE, 3)) == rs[..3] == rs;
    OrdersAfter(s.store, rs);
    assert rs[..2][..1] == rs[..1] && rs[..1] == [rs[0]];
    assert Written(rs[..1]) == Some(rs[0]) && Written(rs[..2]) == Written(rs[..1]) && Written(rs) == Written(rs[..2]);
  }

  /** With an ordinary challenge, all of it stored, the work order goes from awaiting approval straight
      to completed, which no operation of a work order does. */
  lemma WriteBackSkipsApproval() returns (steps: seq<Step>, st: Step)
    ensures !Rebuilds(steps) && st.FinishStep?
    ensures var o, o' := Run(steps).store.tables.orders, Next(Run(steps), st).store.tables.orders;
            && 1 in o && o[1].status == Status.AwaitingApproval
            && 1 in o' && o'[1].status == Status.Completed
            && !Edge(o[1].status, o'[1].status)
  {
    hide ControlPlane.Next, SystemInvariant.SystemInv, Gated;
    var create := CreateStep(CHALLENGE, 3);
    st := FINISH;
    var claimed := FirstSweep();
    Challenging(Run(claimed));
    RunSnoc(claimed, create);
    steps := claimed + [create];
    assert forall i :: 0 <= i < |claimed| ==> steps[i] == claimed[i];
    RunInv(steps);
    TicketIsForTheWonOrder(Run(steps), 0);
    Completing(Run(steps), Status.AwaitingApproval);
  }
}
