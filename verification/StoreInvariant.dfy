/** What holds of the store after every single transaction, hence at every crash point.

    The rebuilt work orders `Replay(log).orders` stand beside the live table: a rebuild replaces
    the one by the other, so everything is said of both at once. */
module StoreInvariant {
  import opened Wrappers
  import opened Domain
  import opened EventStore
  import opened Refinement

  // ----- Counting decisions in the log -----

  predicate IsDecision(e: Event, id: Id) {
    e.OrderLogged? && e.name.OrderApprovalDecided? && e.order.id == id
  }

  /** How many `work_order.approval_decided` events the log holds for a work order. */
  function Decisions(log: seq<Event>, id: Id): nat {
    if log == [] then 0
    else Decisions(log[..|log| - 1], id) + if IsDecision(log[|log| - 1], id) then 1 else 0
  }

  lemma DecisionsSnoc(log: seq<Event>, e: Event, id: Id)
    ensures Decisions(log + [e], id) == Decisions(log, id) + if IsDecision(e, id) then 1 else 0
  {
    assert (log + [e])[..|log|] == log;
  }

  /** The log holds a decision of the work order that left it in `status`. */
  ghost predicate DecidedAs(log: seq<Event>, id: Id, status: Status) {
    exists i :: 0 <= i < |log| && IsDecision(log[i], id) && log[i].order.status == status
  }

  predicate IsSettled(status: Status) {
    status == Status.Approved || status == Status.Failed
  }

  // ----- The invariant -----

  /** Live and replayed status of one work order. The replayed one is what the last `work_order.`
      event says; the live one may be ahead by what the dispatcher logged under `microtask.`. */
  predicate Compatible(live: Status, replayed: Status) {
    match replayed
    case Submitted => live in {Status.Submitted, Status.Leased, Status.Completed, Status.Failed}
    case AwaitingApproval => live in {Status.AwaitingApproval, Status.Completed, Status.Failed}
    case Approved => live in {Status.Approved, Status.Completed, Status.Failed}
    case Failed => live in {Status.Failed, Status.Completed}
    case _ => false
  }

  ghost predicate OrdersInv(live: map<Id, OrderData>, replayed: map<Id, OrderData>) {
    && live.Keys == replayed.Keys
    && forall id | id in live ::
         && live[id].id == id && replayed[id].id == id
         && live[id].task == replayed[id].task
         && Compatible(live[id].status, replayed[id].status)
  }

  ghost predicate ApprovalsInv(approvals: map<Key, ApprovalData>, replayed: map<Id, OrderData>) {
    forall k | k in approvals ::
      && approvals[k].order == k.order && approvals[k].approver == k.who
      && k.order in replayed && replayed[k.order].status != Status.Submitted
      && (approvals[k].decision.Some? ==> replayed[k.order].status == Settled(approvals[k].decision.value))
  }

  /** A challenge is backed by an approval row of the same expiry, and by its decision once decided. */
  predicate Backed(c: ChallengeData, approvals: map<Key, ApprovalData>) {
    var k := Key(c.order, c.approver);
    && k in approvals
    && approvals[k].expiresAt == c.expiresAt
    && (c.state == ChallengeState.Approved ==> approvals[k].decision == Some(Decision.Approved))
    && (c.state == ChallengeState.Rejected ==> approvals[k].decision == Some(Decision.Rejected))
  }

  ghost predicate ChallengesInv(challenges: map<Id, ChallengeRow>, approvals: map<Key, ApprovalData>) {
    && (forall i | i in challenges ::
          && challenges[i].data.id == i
          && challenges[i].tokenHash == challenges[i].data.tokenHash
          && Backed(challenges[i].data, approvals))
    && (forall i, j | i in challenges && j in challenges && i != j ::
          challenges[i].tokenHash != challenges[j].tokenHash)
  }

  ghost predicate DecisionsInv(log: seq<Event>, replayed: map<Id, OrderData>) {
    forall id ::
      && Decisions(log, id) == (if id in replayed && IsSettled(replayed[id].status) then 1 else 0)
      && (id in replayed && IsSettled(replayed[id].status) ==> DecidedAs(log, id, replayed[id].status))
  }

  /** The log holds a `work_order.awaiting_approval` event of the work order. */
  ghost predicate Challenged(log: seq<Event>, id: Id) {
    exists i :: 0 <= i < |log| && IsChallenge(log[i], id)
  }

  predicate IsChallenge(e: Event, id: Id) {
    e.OrderLogged? && e.name.OrderAwaitingApproval? && e.order.id == id
  }

  lemma ChallengedSnoc(log: seq<Event>, e: Event, id: Id)
    ensures Challenged(log + [e], id) <==> Challenged(log, id) || IsChallenge(e, id)
  {
    if Challenged(log, id) {
      var i :| 0 <= i < |log| && IsChallenge(log[i], id);
      assert (log + [e])[i] == log[i];
    }
    if IsChallenge(e, id) {
      assert (log + [e])[|log|] == e;
    }
  }

  ghost predicate ChallengedInv(log: seq<Event>, replayed: map<Id, OrderData>) {
    forall id :: Challenged(log, id) <==> id in replayed && replayed[id].status != Status.Submitted
  }

  ghost predicate CompletionsInv(log: seq<Event>) {
    forall i | 0 <= i < |log| && log[i].OrderLogged? && log[i].name.MicrotaskCompleted? :: log[i].order.evidence != []
  }

  lemma CompletionsSnoc(log: seq<Event>, e: Event)
    requires CompletionsInv(log)
    requires e.OrderLogged? && e.name.MicrotaskCompleted? ==> e.order.evidence != []
    ensures CompletionsInv(log + [e])
  {
  }

  /** The parts of the invariant, for tables `t` over a log whose replayed work orders are given. */
  ghost predicate Parts(t: Tables, log: seq<Event>, replayed: map<Id, OrderData>) {
    && OrdersInv(t.orders, replayed)
    && ApprovalsInv(t.approvals, replayed)
    && ChallengesInv(t.challenges, t.approvals)
    && DecisionsInv(log, replayed)
    && ChallengedInv(log, replayed)
    && CompletionsInv(log)
  }

  ghost predicate StoreInv(s: Store) {
    var t, p := s.tables, Replay(s.log);
    && Families(t, p)
    && Parts(t, s.log, p.orders)
  }

  // ----- The transactions that keep it -----

  predicate OrderAllowed(t: Tables, name: OrderEvent, o: OrderData) {
    match name
    case OrderSubmitted => o.id !in t.orders && o.status == Status.Submitted
    case OrderAwaitingApproval =>
      && o.id in t.orders && o.task == t.orders[o.id].task && o.status == Status.AwaitingApproval
      && t.orders[o.id].status in {Status.Submitted, Status.Leased}
    case OrderApprovalDecided =>
      && o.id in t.orders && o.task == t.orders[o.id].task && IsSettled(o.status)
      && t.orders[o.id].status == Status.AwaitingApproval
    case MicrotaskLeased =>
      && o.id in t.orders && o.task == t.orders[o.id].task && o.status == Status.Leased
      && t.orders[o.id].status == Status.Submitted
    case MicrotaskCompleted =>
      && o.id in t.orders && o.task == t.orders[o.id].task && o.status == Status.Completed && o.evidence != []
    case MicrotaskFailed =>
      && o.id in t.orders && o.task == t.orders[o.id].task && o.status == Status.Failed
  }

  predicate ApprovalAllowed(t: Tables, replayed: map<Id, OrderData>, a: ApprovalData) {
    var k := Key(a.order, a.approver);
    && a.order in replayed && replayed[a.order].status != Status.Submitted
    && (a.decision.Some? ==> replayed[a.order].status == Settled(a.decision.value))
    && (k in t.approvals ==>
          && a.expiresAt == t.approvals[k].expiresAt
          && (t.approvals[k].decision.Some? ==> a.decision == t.approvals[k].decision))
  }

  predicate ChallengeAllowed(t: Tables, c: ChallengeData) {
    && Backed(c, t.approvals)
    && (c.id in t.challenges ==> t.challenges[c.id].data.tokenHash == c.tokenHash)
  }

  predicate AllowedAt(t: Tables, replayed: map<Id, OrderData>, r: Record) {
    match r
    case PutOrder(name, o) => OrderAllowed(t, name, o)
    case PutApproval(a) => ApprovalAllowed(t, replayed, a)
    case PutChallenge(c) => ChallengeAllowed(t, c)
    case _ => true
  }

  predicate Allowed(s: Store, r: Record) {
    AllowedAt(s.tables, Replay(s.log).orders, r)
  }

  /** The replayed work orders after one more event. */
  function ReplayOrders(replayed: map<Id, OrderData>, e: Event): map<Id, OrderData> {
    if e.OrderLogged? && Replayable(e.name) then replayed[e.order.id := e.order]
    else if e.EvidenceRecorded? && e.about in replayed
    then replayed[e.about := WithEvidence(replayed[e.about], e.evidence)]
    else replayed
  }

  lemma OrderKeepsOrders(t: Tables, replayed: map<Id, OrderData>, name: OrderEvent, o: OrderData)
    requires OrdersInv(t.orders, replayed) && OrderAllowed(t, name, o)
    ensures OrdersInv(t.orders[o.id := o], ReplayOrders(replayed, OrderLogged(name, o)))
  {
  }

  lemma OrderKeepsApprovals(t: Tables, replayed: map<Id, OrderData>, name: OrderEvent, o: OrderData)
    requires OrdersInv(t.orders, replayed) && ApprovalsInv(t.approvals, replayed) && OrderAllowed(t, name, o)
    ensures ApprovalsInv(t.approvals, ReplayOrders(replayed, OrderLogged(name, o)))
  {
  }

  lemma OrderKeepsDecisions(t: Tables, log: seq<Event>, replayed: map<Id, OrderData>, name: OrderEvent, o: OrderData)
    requires OrdersInv(t.orders, replayed) && DecisionsInv(log, replayed) && OrderAllowed(t, name, o)
    ensures DecisionsInv(log + [OrderLogged(name, o)], ReplayOrders(replayed, OrderLogged(name, o)))
  {
    var e := OrderLogged(name, o);
    var replayed' := ReplayOrders(replayed, e);
    forall id
      ensures Decisions(log + [e], id) == if id in replayed' && IsSettled(replayed'[id].status) then 1 else 0
      ensures id in replayed' && IsSettled(replayed'[id].status) ==> DecidedAs(log + [e], id, replayed'[id].status)
    {
      DecisionsSnoc(log, e, id);
      assert Decisions(log, id) == if id in replayed && IsSettled(replayed[id].status) then 1 else 0;
      if id in replayed' && IsSettled(replayed'[id].status) {
        if id == o.id && name.OrderApprovalDecided? {
          assert IsDecision((log + [e])[|log|], id);
        } else {
          DecidedStays(log, e, id, replayed'[id].status);
        }
      }
    }
  }

  lemma EventKeepsChallenged(t: Tables, log: seq<Event>, replayed: map<Id, OrderData>, e: Event)
    requires OrdersInv(t.orders, replayed) && ChallengedInv(log, replayed)
    requires e.OrderLogged? ==> OrderAllowed(t, e.name, e.order)
    ensures ChallengedInv(log + [e], ReplayOrders(replayed, e))
  {
    forall id
      ensures Challenged(log + [e], id) <==>
              id in ReplayOrders(replayed, e) && ReplayOrders(replayed, e)[id].status != Status.Submitted
    {
      ChallengedSnoc(log, e, id);
    }
  }

  lemma DecidedStays(log: seq<Event>, e: Event, id: Id, status: Status)
    requires DecidedAs(log, id, status)
    ensures DecidedAs(log + [e], id, status)
  {
    var i :| 0 <= i < |log| && IsDecision(log[i], id) && log[i].order.status == status;
    assert (log + [e])[i] == log[i];
  }

  /** Events other than work-order snapshots leave ids, tasks and statuses of replayed work orders alone. */
  lemma OtherEventsKeep(t: Tables, log: seq<Event>, replayed: map<Id, OrderData>, e: Event)
    requires OrdersInv(t.orders, replayed) && ApprovalsInv(t.approvals, replayed) && DecisionsInv(log, replayed)
    requires !e.OrderLogged?
    ensures var replayed' := ReplayOrders(replayed, e);
            && OrdersInv(t.orders, replayed') && ApprovalsInv(t.approvals, replayed')
            && DecisionsInv(log + [e], replayed')
  {
    var replayed' := ReplayOrders(replayed, e);
    forall id
      ensures Decisions(log + [e], id) == if id in replayed' && IsSettled(replayed'[id].status) then 1 else 0
      ensures id in replayed' && IsSettled(replayed'[id].status) ==> DecidedAs(log + [e], id, replayed'[id].status)
    {
      DecisionsSnoc(log, e, id);
      assert Decisions(log, id) == if id in replayed && IsSettled(replayed[id].status) then 1 else 0;
      if id in replayed' && IsSettled(replayed'[id].status) {
        DecidedStays(log, e, id, replayed'[id].status);
      }
    }
  }

  lemma ApprovalKeeps(t: Tables, replayed: map<Id, OrderData>, a: ApprovalData)
    requires ApprovalsInv(t.approvals, replayed) && ChallengesInv(t.challenges, t.approvals)
    requires ApprovalAllowed(t, replayed, a)
    ensures ApprovalsInv(UpsertApproval(t.approvals, a), replayed)
    ensures ChallengesInv(t.challenges, UpsertApproval(t.approvals, a))
  {
  }

  lemma ChallengeKeeps(t: Tables, c: ChallengeData)
    requires ChallengesInv(t.challenges, t.approvals) && ChallengeAllowed(t, c)
    requires UpsertChallenge(t.challenges, c).Some?
    ensures ChallengesInv(UpsertChallenge(t.challenges, c).value, t.approvals)
  {
  }

  lemma ProjectKeepsParts(t: Tables, log: seq<Event>, replayed: map<Id, OrderData>, r: Record)
    requires Parts(t, log, replayed) && Project(t, r).Some? && AllowedAt(t, replayed, r)
    ensures Parts(Project(t, r).value, log + [EventOf(r)], ReplayOrders(replayed, EventOf(r)))
  {
    hide OrdersInv, ApprovalsInv, ChallengesInv, DecisionsInv, ChallengedInv, CompletionsInv;
    CompletionsSnoc(log, EventOf(r));
    EventKeepsChallenged(t, log, replayed, EventOf(r));
    if r.PutOrder? {
      OrderKeepsOrders(t, replayed, r.name, r.order);
      OrderKeepsApprovals(t, replayed, r.name, r.order);
      OrderKeepsDecisions(t, log, replayed, r.name, r.order);
    } else {
      OtherEventsKeep(t, log, replayed, EventOf(r));
      if r.PutApproval? {
        ApprovalKeeps(t, replayed, r.approval);
      } else if r.PutChallenge? {
        ChallengeKeeps(t, r.challenge);
      }
    }
  }

  lemma ReplayedOrdersSnoc(log: seq<Event>, e: Event)
    ensures Replay(log + [e]).orders == ReplayOrders(Replay(log).orders, e)
  {
    ReplaySnoc(log, e);
  }

  lemma CommitKeepsParts(s: Store, r: Record)
    requires Parts(s.tables, s.log, Replay(s.log).orders) && Allowed(s, r)
    ensures var s' := Commit(s, r); Parts(s'.tables, s'.log, Replay(s'.log).orders)
  {
    var replayed := Replay(s.log).orders;
    if Project(s.tables, r).Some? {
      ReplayedOrdersSnoc(s.log, EventOf(r));
      ProjectKeepsParts(s.tables, s.log, replayed, r);
      assert Commit(s, r) == Store(s.log + [EventOf(r)], Project(s.tables, r).value);
    }
  }

  /** One allowed transaction keeps the invariant, whether or not it commits. */
  lemma CommitKeepsInv(s: Store, r: Record)
    requires StoreInv(s) && Allowed(s, r)
    ensures StoreInv(Commit(s, r))
  {
    CommitKeepsFamilies(s, r);
    CommitKeepsParts(s, r);
  }

  // ----- Sequences of transactions -----

  /** Each record is allowed in the store the records before it leave behind. */
  ghost predicate AllowedInTurn(s: Store, rs: seq<Record>) {
    forall i | 0 <= i < |rs| :: Allowed(CommitAll(s, rs[..i]), rs[i])
  }

  lemma {:induction false} PrefixKeepsInv(s: Store, rs: seq<Record>, k: nat)
    requires StoreInv(s) && AllowedInTurn(s, rs) && k <= |rs|
    ensures StoreInv(CommitAll(s, rs[..k]))
  {
    if k > 0 {
      PrefixKeepsInv(s, rs, k - 1);
      assert rs[..k][..k - 1] == rs[..k - 1];
      CommitKeepsInv(CommitAll(s, rs[..k - 1]), rs[k - 1]);
    }
  }

  lemma ReplayedPartsHold(t: Tables, log: seq<Event>, replayed: map<Id, OrderData>)
    requires Parts(t, log, replayed)
    ensures Parts(t.(orders := replayed), log, replayed)
  {
  }

  /** A rebuild keeps the invariant: of what it speaks of, only the work orders change. */
  lemma RebuildKeepsInv(s: Store)
    requires StoreInv(s)
    ensures StoreInv(Rebuild(s))
    ensures Rebuild(s).tables.orders == Replay(s.log).orders
  {
    RebuildKeepsFamilies(s);
    ReplayedPartsHold(s.tables, s.log, Replay(s.log).orders);
  }
}
