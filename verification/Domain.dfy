/** Work orders, approvals and approval challenges: the documents that are stored, and the
    operations that change them in memory before they are stored again. */
module Domain {
  import opened Wrappers
  import Json

  /** Universally unique ids; the nil id marks an event that belongs to no work order. */
  type Id = nat
  const NIL: Id := 0

  /** Instants and durations of the system clock. */
  type Time = int

  datatype Status = Submitted | Leased | AwaitingApproval | Approved | Completed | Failed | Cancelled
  datatype Decision = Approved | Rejected
  datatype ChallengeState = Pending | Approved | Rejected | Expired
  datatype Channel = Local | Telegram
  datatype AttentionLevel = Info | Warn | Page

  datatype Task = Task(kind: string, payload: Json.Value)
  datatype Evidence = Evidence(kind: string, uri: string, capturedAt: Time)
  datatype Attention = Attention(level: AttentionLevel, reason: string)
  datatype LeaseData = LeaseData(order: Id, holder: string, expiresAt: Time)
  datatype Actor = Actor(approver: string, telegramUser: Option<int>, telegramChat: Option<int>)

  datatype OrderData = OrderData(
    id: Id, subject: string, task: Task, status: Status,
    evidence: seq<Evidence>, attention: seq<Attention>, createdAt: Time, updatedAt: Time)

  datatype ApprovalData = ApprovalData(order: Id, approver: string, expiresAt: Time, decision: Option<Decision>)

  datatype ChallengeData = ChallengeData(
    id: Id, order: Id, approver: string, channel: Channel,
    targetUser: Option<int>, targetChat: Option<int>, tokenHash: string,
    expiresAt: Time, state: ChallengeState, decision: Option<Decision>, createdAt: Time, updatedAt: Time)

  datatype DomainError =
    | LeaseWrongWorkOrder | LeaseHolderMismatch | LeaseExpired
    | ApprovalExpired | WrongApprover | ApprovalAlreadyUsed
    | InvalidTransition(from: Status)

  // ----- The specification of the operations on documents -----

  function Submit(id: Id, subject: string, task: Task, now: Time): OrderData {
    OrderData(id, subject, task, Status.Submitted, [], [], now, now)
  }

  function Transition(o: OrderData, to: Status, allowed: set<Status>, now: Time): Result<OrderData, DomainError> {
    if o.status in allowed then Success(o.(status := to, updatedAt := now)) else Failure(InvalidTransition(o.status))
  }

  function LeaseOrder(o: OrderData, now: Time): Result<OrderData, DomainError> {
    Transition(o, Status.Leased, {Status.Submitted}, now)
  }

  function AwaitApproval(o: OrderData, now: Time): Result<OrderData, DomainError> {
    Transition(o, Status.AwaitingApproval, {Status.Submitted, Status.Leased}, now)
  }

  /** The status a work order settles in once its approval carries decision `d`. */
  function Settled(d: Decision): Status {
    match d case Approved => Status.Approved case Rejected => Status.Failed
  }

  /** The approval document is marked before the work order's status is checked. */
  function SettleOrder(o: OrderData, a: ApprovalData, approver: string, d: Decision, now: Time)
    : (ApprovalData, Result<OrderData, DomainError>)
  {
    if a.order != o.id then (a, Failure(LeaseWrongWorkOrder))
    else if a.expiresAt < now then (a, Failure(ApprovalExpired))
    else if a.approver != approver then (a, Failure(WrongApprover))
    else (a.(decision := Some(d)), Transition(o, Settled(d), {Status.AwaitingApproval}, now))
  }

  function CompleteOrder(o: OrderData, now: Time): Result<OrderData, DomainError> {
    Transition(o, Status.Completed, {Status.Leased, Status.Approved}, now)
  }

  function FailOrder(o: OrderData, reason: string, now: Time): OrderData {
    o.(status := Status.Failed, updatedAt := now, attention := o.attention + [Attention(Warn, reason)])
  }

  function StateOf(d: Decision): ChallengeState {
    match d case Approved => ChallengeState.Approved case Rejected => ChallengeState.Rejected
  }

  /** Deciding a challenge: an overdue challenge is marked expired although the call fails. */
  function DecideChallenge(c: ChallengeData, actor: Actor, d: Decision, now: Time)
    : (ChallengeData, Result<(), DomainError>)
  {
    if c.state != Pending then (c, Failure(ApprovalAlreadyUsed))
    else if now > c.expiresAt then (c.(state := Expired, updatedAt := now), Failure(ApprovalExpired))
    else if c.approver != actor.approver || c.targetUser != actor.telegramUser || c.targetChat != actor.telegramChat
    then (c, Failure(WrongApprover))
    else (c.(state := StateOf(d), decision := Some(d), updatedAt := now), Success(()))
  }

  function ValidateFor(l: LeaseData, order: Id, holder: string, now: Time): Result<(), DomainError> {
    if l.order != order then Failure(LeaseWrongWorkOrder)
    else if l.holder != holder then Failure(LeaseHolderMismatch)
    else if l.expiresAt < now then Failure(LeaseExpired)
    else Success(())
  }

  // ----- The transition relation of the work-order status -----

  /** `from` to `to` is a move that some operation of a work order makes. */
  predicate Edge(from: Status, to: Status) {
    || (from == Status.Submitted && to == Status.Leased)
    || (from in {Status.Submitted, Status.Leased} && to == Status.AwaitingApproval)
    || (from == Status.AwaitingApproval && to == Status.Approved)
    || (from in {Status.Leased, Status.Approved} && to == Status.Completed)
    || to == Status.Failed
  }

  /** One call on a work order. */
  datatype Call =
    | CallLease | CallRequireApproval | CallComplete | CallFail(reason: string)
    | CallApply(approval: ApprovalData, approver: string, decision: Decision)

  function Outcome(o: OrderData, call: Call, now: Time): Result<OrderData, DomainError> {
    match call
    case CallLease => LeaseOrder(o, now)
    case CallRequireApproval => AwaitApproval(o, now)
    case CallComplete => CompleteOrder(o, now)
    case CallFail(reason) => Success(FailOrder(o, reason, now))
    case CallApply(a, approver, d) => SettleOrder(o, a, approver, d, now).1
  }

  /** The relation is exact: a status is reached from `o` by some call if and only if it is an edge. */
  lemma EdgesAreTheCalls(o: OrderData, to: Status, now: Time)
    ensures Edge(o.status, to) <==>
            exists call :: Outcome(o, call, now).Success? && Outcome(o, call, now).value.status == to
  {
    if Edge(o.status, to) {
      var approval := ApprovalData(o.id, "approver", now, None);
      var call := match to
        case Leased => CallLease
        case AwaitingApproval => CallRequireApproval
        case Approved => CallApply(approval, "approver", Decision.Approved)
        case Completed => CallComplete
        case _ => CallFail("");
      assert Outcome(o, call, now).Success? && Outcome(o, call, now).value.status == to;
    }
  }

  /** No call changes what a work order is: its id, subject, task and creation time. */
  predicate SameIdentity(o: OrderData, o': OrderData) {
    o.id == o'.id && o.subject == o'.subject && o.task == o'.task && o.createdAt == o'.createdAt
  }

  lemma CallsKeepIdentity(o: OrderData, call: Call, now: Time)
    requires Outcome(o, call, now).Success?
    ensures SameIdentity(o, Outcome(o, call, now).value)
    ensures o.evidence == Outcome(o, call, now).value.evidence
  {
  }

  // ----- The in-memory objects -----

  class Approval {
    const order: Id
    const approver: string
    const expiresAt: Time
    var decision: Option<Decision>

    constructor (data: ApprovalData)
      ensures Data() == data
    {
      order, approver, expiresAt, decision := data.order, data.approver, data.expiresAt, data.decision;
    }

    function Data(): ApprovalData reads this {
      ApprovalData(order, approver, expiresAt, decision)
    }
  }

  class WorkOrder {
    const id: Id
    const subject: string
    const task: Task
    var status: Status
    var evidence: seq<Evidence>
    var attention: seq<Attention>
    const createdAt: Time
    var updatedAt: Time

    constructor (data: OrderData)
      ensures Data() == data
    {
      id, subject, task, status := data.id, data.subject, data.task, data.status;
      evidence, attention, createdAt, updatedAt := data.evidence, data.attention, data.createdAt, data.updatedAt;
    }

    function Data(): OrderData reads this {
      OrderData(id, subject, task, status, evidence, attention, createdAt, updatedAt)
    }

    method Move(to: Status, allowed: set<Status>, now: Time) returns (r: Result<(), DomainError>)
      modifies this
      ensures match Transition(old(Data()), to, allowed, now)
              case Success(o) => r == Success(()) && Data() == o
              case Failure(e) => r == Failure(e) && Data() == old(Data())
    {
      if status !in allowed {
        return Failure(InvalidTransition(status));
      }
      status := to;
      updatedAt := now;
      r := Success(());
    }

    method Lease(holder: string, ttl: Time, now: Time) returns (r: Result<LeaseData, DomainError>)
      modifies this
      ensures match LeaseOrder(old(Data()), now)
              case Success(o) => r == Success(LeaseData(id, holder, now + ttl)) && Data() == o
              case Failure(e) => r == Failure(e) && Data() == old(Data())
      ensures r.Success? <==> old(status) == Status.Submitted
      ensures r.Success? ==> status == Status.Leased && updatedAt == now && unchanged(`evidence, `attention)
    {
      var moved := Move(Status.Leased, {Status.Submitted}, now);
      match moved {
        case Success(_) => r := Success(LeaseData(id, holder, now + ttl));
        case Failure(e) => r := Failure(e);
      }
    }

    method RequireApproval(approver: string, ttl: Time, now: Time) returns (r: Result<ApprovalData, DomainError>)
      modifies this
      ensures match AwaitApproval(old(Data()), now)
              case Success(o) => r == Success(ApprovalData(id, approver, now + ttl, None)) && Data() == o
              case Failure(e) => r == Failure(e) && Data() == old(Data())
      ensures r.Success? <==> old(status) == Status.Submitted || old(status) == Status.Leased
      ensures r.Success? ==> status == Status.AwaitingApproval && updatedAt == now && unchanged(`evidence, `attention)
    {
      var moved := Move(Status.AwaitingApproval, {Status.Submitted, Status.Leased}, now);
      match moved {
        case Success(_) => r := Success(ApprovalData(id, approver, now + ttl, None));
        case Failure(e) => r := Failure(e);
      }
    }

    method ApplyApproval(approval: Approval, approver: string, decision: Decision, now: Time)
      returns (r: Result<(), DomainError>)
      modifies this, approval
      ensures approval.Data() == SettleOrder(old(Data()), old(approval.Data()), approver, decision, now).0
      ensures match SettleOrder(old(Data()), old(approval.Data()), approver, decision, now).1
              case Success(o) => r == Success(()) && Data() == o
              case Failure(e) => r == Failure(e) && Data() == old(Data())
      ensures r.Success? <==>
                && approval.order == id && now <= approval.expiresAt && approval.approver == approver
                && old(status) == Status.AwaitingApproval
      ensures r.Success? && decision == Decision.Approved ==> status == Status.Approved
      ensures r.Success? && decision == Decision.Rejected ==> status == Status.Failed
      ensures r.Success? ==> approval.decision == Some(decision) && updatedAt == now && unchanged(`evidence, `attention)
    {
      if approval.order != id {
        return Failure(LeaseWrongWorkOrder);
      }
      if approval.expiresAt < now {
        return Failure(ApprovalExpired);
      }
      if approval.approver != approver {
        return Failure(WrongApprover);
      }
      approval.decision := Some(decision);
      match decision {
        case Approved => r := Move(Status.Approved, {Status.AwaitingApproval}, now);
        case Rejected => r := Move(Status.Failed, {Status.AwaitingApproval}, now);
      }
    }

    method Complete(now: Time) returns (r: Result<(), DomainError>)
      modifies this
      ensures match CompleteOrder(old(Data()), now)
              case Success(o) => r == Success(()) && Data() == o
              case Failure(e) => r == Failure(e) && Data() == old(Data())
      ensures r.Success? <==> old(status) == Status.Leased || old(status) == Status.Approved
      ensures r.Success? ==> status == Status.Completed && updatedAt == now && unchanged(`evidence, `attention)
    {
      r := Move(Status.Completed, {Status.Leased, Status.Approved}, now);
    }

    method Fail(reason: string, now: Time)
      modifies this
      ensures Data() == FailOrder(old(Data()), reason, now)
      ensures status == Status.Failed && updatedAt == now && unchanged(`evidence)
      ensures attention == old(attention) + [Attention(Warn, reason)]
    {
      status := Status.Failed;
      updatedAt := now;
      attention := attention + [Attention(Warn, reason)];
    }
  }

  class ApprovalChallenge {
    const id: Id
    const order: Id
    const approver: string
    const channel: Channel
    const targetUser: Option<int>
    const targetChat: Option<int>
    const tokenHash: string
    const expiresAt: Time
    var state: ChallengeState
    var decision: Option<Decision>
    const createdAt: Time
    var updatedAt: Time

    constructor (data: ChallengeData)
      ensures Data() == data
    {
      id, order, approver, channel := data.id, data.order, data.approver, data.channel;
      targetUser, targetChat, tokenHash, expiresAt := data.targetUser, data.targetChat, data.tokenHash, data.expiresAt;
      state, decision, createdAt, updatedAt := data.state, data.decision, data.createdAt, data.updatedAt;
    }

    function Data(): ChallengeData reads this {
      ChallengeData(id, order, approver, channel, targetUser, targetChat, tokenHash, expiresAt,
                    state, decision, createdAt, updatedAt)
    }

    method Decide(actor: Actor, d: Decision, now: Time) returns (r: Result<(), DomainError>)
      modifies this
      ensures (Data(), r) == DecideChallenge(old(Data()), actor, d, now)
      ensures r.Success? <==>
                && old(state) == ChallengeState.Pending && now <= expiresAt
                && actor == Actor(approver, targetUser, targetChat)
      ensures r.Success? ==>
                && state == (if d == Decision.Approved then ChallengeState.Approved else ChallengeState.Rejected)
                && decision == Some(d) && updatedAt == now
      ensures r.Failure? && old(state) == ChallengeState.Pending && now > expiresAt ==> state == ChallengeState.Expired
      ensures r.Failure? && !(old(state) == ChallengeState.Pending && now > expiresAt) ==> unchanged(this)
    {
      if state != Pending {
        return Failure(ApprovalAlreadyUsed);
      }
      if now > expiresAt {
        state := Expired;
        updatedAt := now;
        return Failure(ApprovalExpired);
      }
      if approver != actor.approver || targetUser != actor.telegramUser || targetChat != actor.telegramChat {
        return Failure(WrongApprover);
      }
      state := match d case Approved => ChallengeState.Approved case Rejected => ChallengeState.Rejected;
      decision := Some(d);
      updatedAt := now;
      r := Success(());
    }
  }
}
