/** The invariant of the whole system, and what one step can do to the work-order table. */
module SystemInvariant {
  import opened Wrappers
  import opened Domain
  import opened EventStore
  import opened Refinement
  import opened StoreInvariant
  import opened Microtasks
  import opened ControlPlane

  // ----- Every call commits allowed records, in the order it commits them -----

  lemma CommitAllOne(s: Store, r: Record)
    ensures CommitAll(s, [r]) == Commit(s, r)
  {
    assert [r][..0] == [];
  }

  lemma AllowedOne(s: Store, r: Record)
    requires Allowed(s, r)
    ensures AllowedInTurn(s, [r])
  {
    assert [r][..0] == [];
  }

  lemma AllowedTwo(s: Store, r0: Record, r1: Record)
    requires Allowed(s, r0) && Allowed(Commit(s, r0), r1)
    ensures AllowedInTurn(s, [r0, r1])
  {
    var rs := [r0, r1];
    assert rs[..0] == [] && rs[..1] == [r0];
    CommitAllOne(s, r0);
  }

  lemma AllowedThree(s: Store, r0: Record, r1: Record, r2: Record)
    requires Allowed(s, r0) && Allowed(Commit(s, r0), r1) && Allowed(Commit(Commit(s, r0), r1), r2)
    ensures AllowedInTurn(s, [r0, r1, r2])
  {
    var rs := [r0, r1, r2];
    assert rs[..0] == [] && rs[..1] == [r0] && rs[..2] == [r0, r1] && rs[..2][..1] == [r0];
    CommitAllOne(s, r0);
  }

  /** An approval and then a challenge it backs. */
  lemma ApprovalThenChallenge(s: Store, a: ApprovalData, c: ChallengeData)
    requires Allowed(s, PutApproval(a))
    requires c.order == a.order && c.approver == a.approver && c.expiresAt == a.expiresAt
    requires c.state == ChallengeState.Approved ==> a.decision == Some(Decision.Approved)
    requires c.state == ChallengeState.Rejected ==> a.decision == Some(Decision.Rejected)
    requires c.id in s.tables.challenges ==> s.tables.challenges[c.id].data.tokenHash == c.tokenHash
    ensures Allowed(Commit(s, PutApproval(a)), PutChallenge(c))
  {
  }

  /** A snapshot that moves the work order out of `Submitted` for replay lets an undecided or
      matching approval be recorded next. */
  lemma OrderThenApproval(s: Store, name: OrderEvent, o: OrderData, a: ApprovalData)
    requires a.order == o.id && Replayable(name) && o.status != Status.Submitted
    requires a.decision.Some? ==> o.status == Settled(a.decision.value)
    requires var k := Key(a.order, a.approver);
             k in s.tables.approvals ==>
               && a.expiresAt == s.tables.approvals[k].expiresAt
               && (s.tables.approvals[k].decision.Some? ==> a.decision == s.tables.approvals[k].decision)
    ensures Allowed(Commit(s, PutOrder(name, o)), PutApproval(a))
  {
    ReplayedOrdersSnoc(s.log, OrderLogged(name, o));
  }

  lemma UnsettledRows(t: Tables, log: seq<Event>, replayed: map<Id, OrderData>, k: Key)
    requires Parts(t, log, replayed) && k.order in t.orders
    ensures k.order in replayed && t.orders[k.order].id == k.order
    ensures t.orders[k.order].status in {Status.Submitted, Status.Leased} ==> k !in t.approvals
    ensures t.orders[k.order].status == Status.AwaitingApproval ==>
              && replayed[k.order].status == Status.AwaitingApproval
              && (k in t.approvals ==>
                    t.approvals[k].decision.None? && t.approvals[k].order == k.order && t.approvals[k].approver == k.who)
  {
  }

  lemma CreateAllowed(s: Store, c: CreateCall)
    requires StoreInv(s) && c.challenge !in s.tables.challenges
    ensures AllowedInTurn(s, CreateRecords(s.tables, c))
  {
    hide StoreInvariant.OrdersInv, StoreInvariant.ApprovalsInv, StoreInvariant.ChallengesInv,
         StoreInvariant.DecisionsInv, StoreInvariant.ChallengedInv, StoreInvariant.CompletionsInv,
         Refinement.Families, EventStore.Replay;
    var rs := CreateRecords(s.tables, c);
    if rs != [] {
      UnsettledRows(s.tables, s.log, Replay(s.log).orders, Key(c.order, c.approver));
      if |rs| == 3 {
        OrderThenApproval(s, OrderAwaitingApproval, rs[0].order, rs[1].approval);
        ApprovalThenChallenge(Commit(s, rs[0]), rs[1].approval, rs[2].challenge);
        AllowedThree(s, rs[0], rs[1], rs[2]);
      } else {
        ApprovalThenChallenge(s, rs[0].approval, rs[1].challenge);
        AllowedTwo(s, rs[0], rs[1]);
      }
    }
  }

  lemma DecidedRecordsAllowed(s: Store, o: OrderData, a: ApprovalData, c: ChallengeData)
    requires StoreInv(s) && o.id in s.tables.orders && s.tables.orders[o.id].status == Status.AwaitingApproval
    requires o.task == s.tables.orders[o.id].task
    requires a.order == o.id && a.decision.Some? && o.status == Settled(a.decision.value)
    requires var k := Key(a.order, a.approver);
             k in s.tables.approvals && a.expiresAt == s.tables.approvals[k].expiresAt
    requires c.order == a.order && c.approver == a.approver && c.expiresAt == a.expiresAt
    requires c.state == StateOf(a.decision.value)
    requires c.id in s.tables.challenges && s.tables.challenges[c.id].data.tokenHash == c.tokenHash
    ensures AllowedInTurn(s, [PutOrder(OrderApprovalDecided, o), PutApproval(a), PutChallenge(c)])
  {
    hide StoreInvariant.OrdersInv, StoreInvariant.ApprovalsInv, StoreInvariant.ChallengesInv,
         StoreInvariant.DecisionsInv, StoreInvariant.ChallengedInv, StoreInvariant.CompletionsInv,
         Refinement.Families, EventStore.Replay;
    UnsettledRows(s.tables, s.log, Replay(s.log).orders, Key(a.order, a.approver));
    var order := PutOrder(OrderApprovalDecided, o);
    OrderThenApproval(s, OrderApprovalDecided, o, a);
    ApprovalThenChallenge(Commit(s, order), a, c);
    AllowedThree(s, order, PutApproval(a), PutChallenge(c));
  }

  /** A decision that goes through settles the order, marks its approval and then the challenge. */
  lemma DecideShape(t: Tables, c: ChallengeData, call: DecideCall)
    ensures var rs := DecideOn(t, c, call).0;
            || rs == []
            || rs == [PutChallenge(c.(state := ChallengeState.Expired, updatedAt := call.now))]
            || (var k := Key(c.order, c.approver);
                && k in t.approvals && c.order in t.orders
                && c.state == Pending
                && t.approvals[k].order == t.orders[c.order].id
                && t.orders[c.order].status == Status.AwaitingApproval
                && rs == [PutOrder(OrderApprovalDecided,
                                   t.orders[c.order].(status := Settled(call.decision), updatedAt := call.nowApply)),
                          PutApproval(t.approvals[k].(decision := Some(call.decision))),
                          PutChallenge(c.(state := StateOf(call.decision), decision := Some(call.decision),
                                          updatedAt := call.now))])
  {
  }

  lemma DecideOnAllowed(s: Store, id: Id, call: DecideCall)
    requires StoreInv(s) && id in s.tables.challenges
    ensures AllowedInTurn(s, DecideOn(s.tables, s.tables.challenges[id].data, call).0)
  {
    var c := s.tables.challenges[id].data;
    var rs := DecideOn(s.tables, c, call).0;
    DecideShape(s.tables, c, call);
    if |rs| == 1 {
      AllowedOne(s, rs[0]);
    } else if rs != [] {
      DecidedRecordsAllowed(s, rs[0].order, rs[1].approval, rs[2].challenge);
    }
  }

  lemma ClaimAllowed(s: Store, id: Id, holder: string, ttl: Time, now: Time)
    requires StoreInv(s)
    ensures AllowedInTurn(s, ClaimRecords(s.tables, id, holder, ttl, now))
  {
    var rs := ClaimRecords(s.tables, id, holder, ttl, now);
    if rs != [] {
      AllowedTwo(s, rs[0], rs[1]);
    }
  }

  lemma FinishAllowed(s: Store, snapshot: OrderData, ran: Ran, now: Time)
    requires snapshot.id in s.tables.orders && snapshot.task == s.tables.orders[snapshot.id].task
    ensures AllowedInTurn(s, FinishRecords(snapshot, ran, now))
  {
    var rs := FinishRecords(snapshot, ran, now);
    if rs != [] {
      AllowedOne(s, rs[0]);
    }
  }

  // ----- The system invariant -----

  /** How many claims a work order has won. */
  function Wins(won: seq<Id>, id: Id): nat {
    if won == [] then 0 else Wins(won[..|won| - 1], id) + if won[|won| - 1] == id then 1 else 0
  }

  lemma WinsSnoc(won: seq<Id>, x: Id, id: Id)
    ensures Wins(won + [x], id) == Wins(won, id) + if x == id then 1 else 0
  {
    assert (won + [x])[..|won|] == won;
  }

  ghost predicate ListedInv(orders: map<Id, OrderData>, listed: set<OrderData>) {
    forall o | o in listed :: o.id in orders && orders[o.id].task == o.task && IsAutoDispatchable(o)
  }

  ghost predicate TicketsInv(orders: map<Id, OrderData>, tickets: map<nat, Ticket>, won: seq<Id>) {
    forall n | n in tickets ::
      && n < |won| && won[n] == tickets[n].order.id
      && tickets[n].order.id in orders
      && tickets[n].order.task == orders[tickets[n].order.id].task
      && tickets[n].order.status == Status.Leased
      && tickets[n].lease.order == tickets[n].order.id && tickets[n].lease.holder == tickets[n].holder
  }

  /** Each rebuild may give a work order one more chance to be claimed, and nothing else does. */
  ghost predicate WinsInv(orders: map<Id, OrderData>, won: seq<Id>, rebuilds: nat) {
    && (forall id :: id !in orders ==> Wins(won, id) == 0)
    && (forall id | id in orders ::
          Wins(won, id) <= rebuilds + if orders[id].status == Status.Submitted then 0 else 1)
    && (forall n | 0 <= n < |won| :: won[n] in orders && GateOpen(orders[won[n]].task))
  }

  ghost predicate StartsInv(tickets: map<nat, Ticket>, won: seq<Id>, starts: seq<nat>) {
    && (forall i | 0 <= i < |starts| :: starts[i] < |won|)
    && (forall i, j | 0 <= i < j < |starts| :: starts[i] != starts[j])
    && (forall n | n in tickets :: tickets[n].started <==> n in starts)
  }

  /** The volatile state and the histories of `s` fit a table of work orders. */
  ghost predicate VolatileOver(o: map<Id, OrderData>, s: System) {
    && ListedInv(o, s.listed)
    && TicketsInv(o, s.tickets, s.won)
    && WinsInv(o, s.won, s.rebuilds)
    && StartsInv(s.tickets, s.won, s.starts)
  }

  ghost predicate VolatileInv(s: System) {
    VolatileOver(s.store.tables.orders, s)
  }

  ghost predicate SystemInv(s: System) {
    && StoreInv(s.store)
    && VolatileInv(s)
  }

  lemma DecideAllowed(s: Store, d: DecideCall)
    requires StoreInv(s)
    ensures AllowedInTurn(s, DecideOutcome(s.tables, d).0)
  {
    hide StoreInvariant.OrdersInv, StoreInvariant.ApprovalsInv, StoreInvariant.ChallengesInv,
         StoreInvariant.DecisionsInv, StoreInvariant.ChallengedInv, StoreInvariant.CompletionsInv,
         Refinement.Families, EventStore.Replay;
    var c := FindByHash(s.tables.challenges, d.tokenHash);
    if c.Some? {
      var id :| id in s.tables.challenges && s.tables.challenges[id].data == c.value;
      DecideOnAllowed(s, id, d);
    }
  }

  lemma SubmitAllowed(s: Store, id: Id, subject: string, task: Task, now: Time)
    ensures AllowedInTurn(s, SubmitFresh(s.tables, id, subject, task, now))
  {
    if id != NIL && id !in s.tables.orders {
      AllowedOne(s, SubmitRecords(id, subject, task, now)[0]);
    }
  }

  lemma EnqueueAllowed(s: Store, g: Generation, id: Id, at: Surroundings, now: Time)
    ensures AllowedInTurn(s, EnqueueRecords(s.tables, g, id, at, now))
  {
    var payload := Payload(g.definition, g.overrides, None, at);
    if payload.Success? {
      SubmitAllowed(s, id, g.definition.subject, Task(g.definition.workOrderKind, payload.value), now);
    }
  }

  lemma AttemptAllowed(s: System, st: Step)
    requires SystemInv(s)
    ensures AllowedInTurn(s.store, Attempt(s, st))
  {
    hide StoreInvariant.OrdersInv, StoreInvariant.ApprovalsInv, StoreInvariant.ChallengesInv,
         StoreInvariant.DecisionsInv, StoreInvariant.ChallengedInv, StoreInvariant.CompletionsInv,
         Refinement.Families, EventStore.Replay, EventStore.Commit, StoreInvariant.Allowed;
    match st {
      case SubmitStep(id, subject, task, now, _) => SubmitAllowed(s.store, id, subject, task, now);
      case CreateStep(c, _) => if c.challenge !in s.store.tables.challenges { CreateAllowed(s.store, c); }
      case DecideStep(d, _) => DecideAllowed(s.store, d);
      case ClaimStep(pick, holder, ttl, now, _) => ClaimAllowed(s.store, pick.id, holder, ttl, now);
      case FinishStep(n, ran, now, _) => if n in s.tickets { FinishAllowed(s.store, s.tickets[n].order, ran, now); }
      case EnqueueStep(id, at, now, _) => if s.pending.Some? { EnqueueAllowed(s.store, s.pending.value, id, at, now); }
      case OtherStep(r, _) => if Ambient(r) { AmbientAllowed(s.store, r); }
      case _ =>
    }
  }

  lemma AmbientAllowed(s: Store, r: Record)
    requires Ambient(r)
    ensures AllowedInTurn(s, [r])
  {
    AllowedOne(s, r);
  }

  lemma StepStoreInv(s: System, st: Step)
    requires SystemInv(s)
    ensures StoreInv(Next(s, st).store)
  {
    hide StoreInvariant.OrdersInv, StoreInvariant.ApprovalsInv, StoreInvariant.ChallengesInv,
         StoreInvariant.DecisionsInv, StoreInvariant.ChallengedInv, StoreInvariant.CompletionsInv,
         Refinement.Families, EventStore.Replay, StoreInvariant.StoreInv, ControlPlane.Attempt;
    assert StoreInv(s.store) by {
      SystemStoreInv(s);
    }
    if st.RebuildStep? {
      RebuildKeepsInv(s.store);
    } else {
      AttemptAllowed(s, st);
      var rs := Attempt(s, st);
      assert rs[..|rs|] == rs;
      PrefixKeepsInv(s.store, rs, |StepRecords(s, st)|);
    }
  }

  lemma SystemStoreInv(s: System)
    requires SystemInv(s)
    ensures StoreInv(s.store)
    ensures Parts(s.store.tables, s.store.log, Replay(s.store.log).orders)
  {
  }

  /** A ticket holds a Leased snapshot of the work order its claim won. */
  lemma TicketIsForTheWonOrder(s: System, n: nat)
    requires SystemInv(s) && n in s.tickets
    ensures var o := s.tickets[n].order;
            && n < |s.won| && o.id == s.won[n] && o.status == Status.Leased
            && o.id in s.store.tables.orders && o.task == s.store.tables.orders[o.id].task
  {
  }

  // ----- What a step can do to the work-order table -----

  /** The snapshot among some records, of which there is at most one. */
  function Written(rs: seq<Record>): Option<Record> {
    if rs == [] then None
    else if rs[|rs| - 1].PutOrder? then Some(rs[|rs| - 1])
    else Written(rs[..|rs| - 1])
  }

  predicate AtMostOneOrder(rs: seq<Record>) {
    forall i, j :: 0 <= i < j < |rs| ==> !(rs[i].PutOrder? && rs[j].PutOrder?)
  }

  function WithWritten(orders: map<Id, OrderData>, w: Option<Record>): map<Id, OrderData> {
    if w.Some? && w.value.PutOrder? then orders[w.value.order.id := w.value.order] else orders
  }

  lemma CommitOrders(s: Store, r: Record)
    ensures Commit(s, r).tables.orders == WithWritten(s.tables.orders, Some(r))
  {
  }

  lemma {:induction false} OrdersAfter(s: Store, rs: seq<Record>)
    requires AtMostOneOrder(rs)
    ensures CommitAll(s, rs).tables.orders == WithWritten(s.tables.orders, Written(rs))
  {
    if rs != [] {
      var n := |rs| - 1;
      OrdersAfter(s, rs[..n]);
      CommitOrders(CommitAll(s, rs[..n]), rs[n]);
      if rs[n].PutOrder? {
        NoneWritten(rs[..n]);
      }
    }
  }

  /** Where the snapshot stands; before it, the work-order table is untouched. */
  lemma {:induction false} WrittenIsAllowed(s: Store, rs: seq<Record>)
    requires AtMostOneOrder(rs) && AllowedInTurn(s, rs) && Written(rs).Some?
    ensures var w := Written(rs).value; w.PutOrder? && OrderAllowed(s.tables, w.name, w.order)
  {
    var n := |rs| - 1;
    if rs[n].PutOrder? {
      NoneWritten(rs[..n]);
      OrdersAfter(s, rs[..n]);
      OrderAllowedSameOrders(CommitAll(s, rs[..n]).tables, s.tables, rs[n].name, rs[n].order);
    } else {
      PrefixAllowed(s, rs, n);
      WrittenIsAllowed(s, rs[..n]);
    }
  }

  lemma OrderAllowedSameOrders(t: Tables, u: Tables, name: OrderEvent, o: OrderData)
    requires t.orders == u.orders && OrderAllowed(t, name, o)
    ensures OrderAllowed(u, name, o)
  {
  }

  lemma {:induction false} NoneWritten(rs: seq<Record>)
    requires forall i :: 0 <= i < |rs| ==> !rs[i].PutOrder?
    ensures Written(rs).None?
  {
    if rs != [] {
      NoneWritten(rs[..|rs| - 1]);
    }
  }

  lemma {:induction false} WrittenIsARecord(rs: seq<Record>)
    requires Written(rs).Some?
    ensures Written(rs).value in rs
  {
    if !rs[|rs| - 1].PutOrder? {
      WrittenIsARecord(rs[..|rs| - 1]);
    }
  }

  lemma StepWrites(s: System, st: Step)
    requires SystemInv(s) && !st.RebuildStep?
    ensures var w := Written(StepRecords(s, st));
            && Next(s, st).store.tables.orders == WithWritten(s.store.tables.orders, w)
            && (w.Some? ==> w.value.PutOrder? && OrderAllowed(s.store.tables, w.value.name, w.value.order))
  {
    AttemptAllowed(s, st);
    AttemptWritesOneOrder(s, st);
    PrefixAllowed(s.store, Attempt(s, st), |StepRecords(s, st)|);
    OrdersAfter(s.store, StepRecords(s, st));
    if Written(StepRecords(s, st)).Some? {
      WrittenIsAllowed(s.store, StepRecords(s, st));
    }
  }

  lemma AttemptWritesOneOrder(s: System, st: Step)
    ensures AtMostOneOrder(StepRecords(s, st))
    ensures |StepRecords(s, st)| <= |Attempt(s, st)|
    ensures StepRecords(s, st) == Attempt(s, st)[..|StepRecords(s, st)|]
  {
  }

  lemma PrefixAllowed(s: Store, rs: seq<Record>, k: nat)
    requires AllowedInTurn(s, rs) && k <= |rs|
    ensures AllowedInTurn(s, rs[..k])
  {
    forall i | 0 <= i < k
      ensures Allowed(CommitAll(s, rs[..k][..i]), rs[..k][i])
    {
      assert rs[..k][..i] == rs[..i];
    }
  }

  /** Work orders never disappear, never change their task, and are never Submitted a second time;
      a finished one stays finished. */
  ghost predicate OrdersMove(o: map<Id, OrderData>, o': map<Id, OrderData>) {
    forall id | id in o ::
      && id in o' && o'[id].task == o[id].task
      && (o'[id].status == Status.Submitted ==> o[id].status == Status.Submitted)
      && (Open(o'[id]) ==> Open(o[id]))
  }

  lemma AllowedMoves(t: Tables, name: OrderEvent, o: OrderData)
    requires OrderAllowed(t, name, o)
    ensures OrdersMove(t.orders, t.orders[o.id := o])
  {
  }

  lemma StepMovesOrders(s: System, st: Step)
    requires SystemInv(s) && !st.RebuildStep?
    ensures OrdersMove(s.store.tables.orders, Next(s, st).store.tables.orders)
  {
    StepWrites(s, st);
    var w := Written(StepRecords(s, st));
    if w.Some? {
      AllowedMoves(s.store.tables, w.value.name, w.value.order);
    }
  }

  // ----- Every step keeps the system invariant -----

  /** A table that keeps ids and tasks keeps what is said of listings and tickets. */
  ghost predicate TasksKept(o: map<Id, OrderData>, o': map<Id, OrderData>) {
    forall id | id in o :: id in o' && o'[id].task == o[id].task
  }

  lemma TasksKeptKeeps(o: map<Id, OrderData>, o': map<Id, OrderData>, listed: set<OrderData>,
                       tickets: map<nat, Ticket>, won: seq<Id>)
    requires TasksKept(o, o') && ListedInv(o, listed) && TicketsInv(o, tickets, won)
    ensures ListedInv(o', listed) && TicketsInv(o', tickets, won)
  {
  }

  lemma MoveKeepsWins(o: map<Id, OrderData>, o': map<Id, OrderData>, won: seq<Id>, rebuilds: nat)
    requires OrdersMove(o, o') && WinsInv(o, won, rebuilds)
    ensures WinsInv(o', won, rebuilds)
  {
  }

  lemma RebuildKeepsWins(o: map<Id, OrderData>, o': map<Id, OrderData>, won: seq<Id>, rebuilds: nat)
    requires TasksKept(o, o') && o.Keys == o'.Keys && WinsInv(o, won, rebuilds)
    ensures WinsInv(o', won, rebuilds + 1)
  {
  }

  lemma RebuildTasks(s: Store)
    requires StoreInv(s)
    ensures var o, o' := s.tables.orders, Rebuild(s).tables.orders; TasksKept(o, o') && o.Keys == o'.Keys
  {
    RebuildKeepsInv(s);
  }

  lemma ClaimShape(t: Tables, id: Id, holder: string, ttl: Time, now: Time)
    requires ClaimRecords(t, id, holder, ttl, now) != []
    ensures var rs := ClaimRecords(t, id, holder, ttl, now);
            && |rs| == 2
            && id in t.orders && t.orders[id].status == Status.Submitted
            && rs[0] == PutLease(LeaseData(t.orders[id].id, holder, now + ttl))
            && rs[1] == PutOrder(MicrotaskLeased, t.orders[id].(status := Status.Leased, updatedAt := now))
            && Written(rs) == Some(rs[1])
  {
  }

  lemma ClaimCommitsAll(s: System, st: Step)
    requires Claims(s, st)
    ensures StepRecords(s, st) == ClaimRecords(s.store.tables, st.pick.id, st.holder, st.ttl, st.now)
    ensures StepRecords(s, st) != [] && st.pick in s.listed
  {
  }

  /** A won claim: the work order was Submitted, is now Leased, and the sweep holds that snapshot. */
  lemma ClaimEffect(s: System, st: Step)
    requires SystemInv(s) && Claims(s, st)
    ensures var o, o' := s.store.tables.orders, Next(s, st).store.tables.orders;
            var id := st.pick.id;
            && id in o && o[id].status == Status.Submitted && GateOpen(o[id].task)
            && o' == o[id := o[id].(status := Status.Leased, updatedAt := st.now)]
            && Remember(s, st) ==
               s.(won := s.won + [id],
                  tickets := s.tickets[|s.won| := Ticket(o'[id], LeaseData(id, st.holder, st.now + st.ttl), st.holder, false)])
  {
    var o, id := s.store.tables.orders, st.pick.id;
    ClaimCommitsAll(s, st);
    ClaimShape(s.store.tables, id, st.holder, st.ttl, st.now);
    assert o[id].id == id;
    assert GateOpen(o[id].task);
    StepWrites(s, st);
  }

  lemma WonTicket(o: map<Id, OrderData>, tickets: map<nat, Ticket>, won: seq<Id>, starts: seq<nat>, ticket: Ticket)
    requires TicketsInv(o, tickets, won) && StartsInv(tickets, won, starts)
    requires var id := ticket.order.id;
             id in o && ticket.order == o[id] && o[id].status == Status.Leased && ticket.lease.order == id
             && ticket.lease.holder == ticket.holder
    requires !ticket.started
    ensures TicketsInv(o, tickets[|won| := ticket], won + [ticket.order.id])
    ensures StartsInv(tickets[|won| := ticket], won + [ticket.order.id], starts)
  {
  }

  lemma WonCount(o: map<Id, OrderData>, o': map<Id, OrderData>, won: seq<Id>, rebuilds: nat, id: Id)
    requires WinsInv(o, won, rebuilds) && OrdersMove(o, o')
    requires id in o && o[id].status == Status.Submitted && GateOpen(o[id].task) && o'[id].status != Status.Submitted
    ensures WinsInv(o', won + [id], rebuilds)
  {
    MoveKeepsWins(o, o', won, rebuilds);
    forall x
      ensures Wins(won + [id], x) == Wins(won, x) + if id == x then 1 else 0
    {
      WinsSnoc(won, id, x);
    }
  }

  lemma ClaimKeeps(s: System, st: Step)
    requires SystemInv(s) && Claims(s, st)
    ensures VolatileInv(Next(s, st))
  {
    ClaimEffect(s, st);
    StepMovesOrders(s, st);
    var o, o' := s.store.tables.orders, Next(s, st).store.tables.orders;
    var id := st.pick.id;
    TasksKeptKeeps(o, o', s.listed, s.tickets, s.won);
    WonTicket(o', s.tickets, s.won, s.starts, Ticket(o'[id], LeaseData(id, st.holder, st.now + st.ttl), st.holder, false));
    WonCount(o, o', s.won, s.rebuilds, id);
  }

  lemma StartKeeps(o: map<Id, OrderData>, tickets: map<nat, Ticket>, won: seq<Id>, starts: seq<nat>, n: nat)
    requires TicketsInv(o, tickets, won) && StartsInv(tickets, won, starts)
    requires n in tickets && !tickets[n].started
    ensures TicketsInv(o, tickets[n := tickets[n].(started := true)], won)
    ensures StartsInv(tickets[n := tickets[n].(started := true)], won, starts + [n])
  {
  }

  lemma DropKeeps(o: map<Id, OrderData>, tickets: map<nat, Ticket>, won: seq<Id>, starts: seq<nat>, n: nat)
    requires TicketsInv(o, tickets, won) && StartsInv(tickets, won, starts)
    ensures TicketsInv(o, tickets - {n}, won) && StartsInv(tickets - {n}, won, starts)
  {
  }

  /** The table part: what was remembered before is still right of the new table. */
  lemma TableKeepsVolatile(s: System, st: Step)
    requires SystemInv(s)
    ensures var o' := Next(s, st).store.tables.orders;
            && TasksKept(s.store.tables.orders, o')
            && VolatileOver(o', s.(rebuilds := s.rebuilds + if st.RebuildStep? then 1 else 0))
  {
    var o, o' := s.store.tables.orders, Next(s, st).store.tables.orders;
    if st.RebuildStep? {
      RebuildTasks(s.store);
      RebuildKeepsWins(o, o', s.won, s.rebuilds);
    } else {
      StepMovesOrders(s, st);
      MoveKeepsWins(o, o', s.won, s.rebuilds);
    }
    TasksKeptKeeps(o, o', s.listed, s.tickets, s.won);
  }

  /** Listing selects work orders that are in the table and pass the gate. */
  lemma ListKeeps(o: map<Id, OrderData>, listed: set<OrderData>)
    requires ListedInv(o, listed) && forall id | id in o :: o[id].id == id
    ensures ListedInv(o, listed + (set id | id in o && IsAutoDispatchable(o[id]) :: o[id]))
  {
  }

  lemma StartStepKeeps(s: System, st: Step, o: map<Id, OrderData>)
    requires VolatileOver(o, s) && st.StartStep?
    ensures VolatileOver(o, Remember(s, st))
  {
    hide ListedInv, TicketsInv, WinsInv, StartsInv;
    if st.serial in s.tickets && !s.tickets[st.serial].started {
      StartKeeps(o, s.tickets, s.won, s.starts, st.serial);
    }
  }

  lemma FinishStepKeeps(s: System, st: Step, o: map<Id, OrderData>)
    requires VolatileOver(o, s) && st.FinishStep?
    ensures VolatileOver(o, Remember(s, st))
  {
    hide ListedInv, TicketsInv, WinsInv, StartsInv;
    DropKeeps(o, s.tickets, s.won, s.starts, st.serial);
  }

  lemma ListStepKeeps(s: System)
    requires VolatileOver(s.store.tables.orders, s)
    requires forall id | id in s.store.tables.orders :: s.store.tables.orders[id].id == id
    ensures VolatileOver(s.store.tables.orders, Remember(s, ListStep))
  {
    hide ListedInv, TicketsInv, WinsInv, StartsInv;
    ListKeeps(s.store.tables.orders, s.listed);
  }

  lemma OtherStepsKeep(s: System, st: Step, o: map<Id, OrderData>)
    requires VolatileOver(o, s.(rebuilds := s.rebuilds + if st.RebuildStep? then 1 else 0))
    requires !st.ListStep? && !st.StartStep? && !st.FinishStep? && !Claims(s, st)
    ensures VolatileOver(o, Remember(s, st))
  {
    hide Claims;
  }

  lemma ListedStoreIsSame(s: System)
    requires StoreInv(s.store)
    ensures Next(s, ListStep).store == s.store
    ensures forall id | id in s.store.tables.orders :: s.store.tables.orders[id].id == id
  {
  }

  lemma RememberedOver(s: System, st: Step)
    ensures var o' := Next(s, st).store.tables.orders; VolatileOver(o', Next(s, st)) <==> VolatileOver(o', Remember(s, st))
  {
    hide ListedInv, TicketsInv, WinsInv, StartsInv, Remember, StepRecords;
  }

  lemma StepKeepsVolatile(s: System, st: Step)
    requires SystemInv(s)
    ensures VolatileInv(Next(s, st))
  {
    hide VolatileOver, Claims;
    if Claims(s, st) {
      ClaimKeeps(s, st);
    } else {
      TableKeepsVolatile(s, st);
      var o' := Next(s, st).store.tables.orders;
      match st {
        case ListStep => ListedStoreIsSame(s); ListStepKeeps(s);
        case StartStep(_) => StartStepKeeps(s, st, o');
        case FinishStep(_, _, _, _) => FinishStepKeeps(s, st, o');
        case _ => OtherStepsKeep(s, st, o');
      }
      RememberedOver(s, st);
    }
  }

  lemma StepKeepsInv(s: System, st: Step)
    requires SystemInv(s)
    ensures SystemInv(Next(s, st))
  {
    StepStoreInv(s, st);
    StepKeepsVolatile(s, st);
  }

  lemma InitialInv()
    ensures SystemInv(INITIAL)
  {
  }

  lemma {:induction false} RunInv(steps: seq<Step>)
    ensures SystemInv(Run(steps))
  {
    if steps == [] {
      InitialInv();
    } else {
      RunInv(steps[..|steps| - 1]);
      StepKeepsInv(Run(steps[..|steps| - 1]), steps[|steps| - 1]);
    }
  }
}
