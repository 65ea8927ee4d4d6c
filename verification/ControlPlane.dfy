/** The control plane as a step system: the store, the dispatcher sweeps with the snapshots they
    hold between calls, and the generator of microtasks.

    A call that holds the store lock reads first and then commits a list of records one by one.
    Each step says how many of them were committed before the process stopped or the database
    refused, so every crash point of every call is a state of some run. */
module ControlPlane {
  import opened Wrappers
  import opened Domain
  import opened EventStore
  import opened Microtasks

  // ----- Submitting -----

  /** The attention policy, evaluated on a work order about to be stored. */
  function Attend(o: OrderData): seq<Attention> {
    match o.status
    case Failed => [Attention(Page, "work order failed")]
    case AwaitingApproval => [Attention(Warn, "approval required")]
    case _ => []
  }

  function Attended(o: OrderData): OrderData {
    o.(attention := o.attention + Attend(o))
  }

  function SubmitRecords(id: Id, subject: string, task: Task, now: Time): seq<Record> {
    [PutOrder(OrderSubmitted, Attended(Submit(id, subject, task, now)))]
  }

  // ----- Creating an approval challenge -----

  /** `now` is read before the store is locked, `nowLocked` by the calls made under the lock. */
  datatype CreateCall = CreateCall(
    order: Id, approver: string, channel: Channel, user: Option<int>, chat: Option<int>, ttl: Time,
    challenge: Id, tokenHash: string, now: Time, nowLocked: Time)

  function NewChallenge(c: CreateCall, expiresAt: Time): ChallengeData {
    ChallengeData(c.challenge, c.order, c.approver, c.channel, c.user, c.chat, c.tokenHash,
                  expiresAt, Pending, None, c.nowLocked, c.nowLocked)
  }

  function CreateRecords(t: Tables, c: CreateCall): seq<Record> {
    if c.order !in t.orders then []
    else
      var o := t.orders[c.order];
      var key := Key(c.order, c.approver);
      match AwaitApproval(o, c.nowLocked)
      case Success(awaiting) =>
        var a := ApprovalData(o.id, c.approver, c.nowLocked + c.ttl, None);
        [PutOrder(OrderAwaitingApproval, Attended(awaiting)), PutApproval(a), PutChallenge(NewChallenge(c, a.expiresAt))]
      case Failure(_) =>
        if o.status != Status.AwaitingApproval then []
        else
          var a := if key in t.approvals then t.approvals[key]
                   else ApprovalData(c.order, c.approver, c.now + c.ttl, None);
          if a.decision.Some? then [] else [PutApproval(a), PutChallenge(NewChallenge(c, a.expiresAt))]
  }

  // ----- Deciding by token -----

  /** The clock is read once for the challenge and once more for the approval. */
  datatype DecideCall = DecideCall(tokenHash: string, actor: Actor, decision: Decision, now: Time, nowApply: Time)

  datatype DecideError =
    | UnknownToken | Expired | AlreadyUsed | WrongApprover
    | ApprovalMissing | OrderMissing | Unavailable(error: DomainError)

  function ErrorOf(e: DomainError): DecideError {
    match e
    case ApprovalExpired => DecideError.Expired
    case ApprovalAlreadyUsed => DecideError.AlreadyUsed
    case WrongApprover => DecideError.WrongApprover
    case _ => Unavailable(e)
  }

  /** What a call on challenge `c` commits, and what it answers when all of that is committed. */
  function DecideOn(t: Tables, c: ChallengeData, call: DecideCall): (seq<Record>, Result<OrderData, DecideError>) {
    var (challenge, verdict) := DecideChallenge(c, call.actor, call.decision, call.now);
    match verdict
    case Failure(e) => (if e == ApprovalExpired then [PutChallenge(challenge)] else [], Failure(ErrorOf(e)))
    case Success(_) =>
      var key := Key(challenge.order, challenge.approver);
      if key !in t.approvals then ([], Failure(ApprovalMissing))
      else if challenge.order !in t.orders then ([], Failure(OrderMissing))
      else
        var (approval, applied) :=
          SettleOrder(t.orders[challenge.order], t.approvals[key], challenge.approver, call.decision, call.nowApply);
        match applied
        case Failure(e) => ([], Failure(ErrorOf(e)))
        case Success(o) =>
          ([PutOrder(OrderApprovalDecided, o), PutApproval(approval), PutChallenge(challenge)], Success(o))
  }

  ghost function DecideOutcome(t: Tables, call: DecideCall): (seq<Record>, Result<OrderData, DecideError>) {
    match FindByHash(t.challenges, call.tokenHash)
    case None => ([], Failure(UnknownToken))
    case Some(c) => DecideOn(t, c, call)
  }

  // ----- Claiming and writing back -----

  function ClaimRecords(t: Tables, id: Id, holder: string, ttl: Time, now: Time): seq<Record> {
    if id !in t.orders then []
    else
      match LeaseOrder(t.orders[id], now)
      case Failure(_) => []
      case Success(leased) => [PutLease(LeaseData(t.orders[id].id, holder, now + ttl)), PutOrder(MicrotaskLeased, leased)]
  }

  /** What the executor came back with. */
  datatype Ran = Produced(evidence: seq<Evidence>) | Errored(reason: string)

  function FailedRecords(snapshot: OrderData, reason: string, now: Time): seq<Record> {
    [PutOrder(MicrotaskFailed, FailOrder(snapshot, reason, now))]
  }

  function CompletedRecords(snapshot: OrderData, evidence: seq<Evidence>, now: Time): seq<Record> {
    match CompleteOrder(snapshot.(evidence := snapshot.evidence + evidence), now)
    case Success(o) => [PutOrder(MicrotaskCompleted, o)]
    case Failure(_) => []
  }

  /** The write-back works on the snapshot taken at claim time, not on the stored row. */
  function FinishRecords(snapshot: OrderData, ran: Ran, now: Time): seq<Record> {
    match ran
    case Errored(reason) => FailedRecords(snapshot, reason, now)
    case Produced(evidence) =>
      if evidence == [] then FailedRecords(snapshot, "no_evidence_produced", now)
      else CompletedRecords(snapshot, evidence, now)
  }

  // ----- The system -----

  /** A work order claimed by a running sweep, with the holder the sweep passes to the executor. */
  datatype Ticket = Ticket(order: OrderData, lease: LeaseData, holder: string, started: bool)

  /** A generator tick that found no open duplicate and is about to submit. */
  datatype Generation = Generation(definition: Definition, overrides: Overrides)

  /** Volatile: `listed` (work orders any sweep has listed), `tickets` and `pending`.
      History: `won` (one entry a successful claim, whose position is the claim's serial),
      `starts` (serials whose executor was started) and the number of `rebuilds`. */
  datatype System = System(
    store: Store, listed: set<OrderData>, tickets: map<nat, Ticket>, pending: Option<Generation>,
    won: seq<Id>, starts: seq<nat>, rebuilds: nat)

  const INITIAL := System(EMPTY_STORE, {}, map[], None, [], [], 0)

  datatype Step =
    | SubmitStep(id: Id, subject: string, task: Task, now: Time, commits: nat)
    | CreateStep(create: CreateCall, commits: nat)
    | DecideStep(decide: DecideCall, commits: nat)
    | ListStep
    | ClaimStep(pick: OrderData, holder: string, ttl: Time, now: Time, commits: nat)
    | StartStep(serial: nat)
    | FinishStep(serial: nat, ran: Ran, now: Time, commits: nat)
    | CheckStep(generation: Generation)
    | EnqueueStep(id: Id, at: Surroundings, now: Time, commits: nat)
    | OtherStep(record: Record, commits: nat)
    | RebuildStep
    | CrashStep

  /** Records written by other callers: evidence, adapter health, effects and control-plane records. */
  predicate Ambient(r: Record) {
    r.PutEvidence? || r.PutHealth? || r.PutEffect? || r.PutControl?
  }

  /** A new work order gets a fresh id. */
  function SubmitFresh(t: Tables, id: Id, subject: string, task: Task, now: Time): seq<Record> {
    if id == NIL || id in t.orders then [] else SubmitRecords(id, subject, task, now)
  }

  function EnqueueRecords(t: Tables, g: Generation, id: Id, at: Surroundings, now: Time): seq<Record> {
    match Payload(g.definition, g.overrides, None, at)
    case Failure(_) => []
    case Success(payload) => SubmitFresh(t, id, g.definition.subject, Task(g.definition.workOrderKind, payload), now)
  }

  /** All records the call of a step means to commit; none if the step is not possible in `s`. */
  ghost function Attempt(s: System, st: Step): seq<Record> {
    var t := s.store.tables;
    match st
    case SubmitStep(id, subject, task, now, _) => SubmitFresh(t, id, subject, task, now)
    case CreateStep(c, _) => if c.challenge in t.challenges then [] else CreateRecords(t, c)
    case DecideStep(d, _) => DecideOutcome(t, d).0
    case ClaimStep(pick, holder, ttl, now, _) =>
      if pick in s.listed then ClaimRecords(t, pick.id, holder, ttl, now) else []
    case FinishStep(n, ran, now, _) =>
      if n in s.tickets && s.tickets[n].started then FinishRecords(s.tickets[n].order, ran, now) else []
    case EnqueueStep(id, at, now, _) => if s.pending.Some? then EnqueueRecords(t, s.pending.value, id, at, now) else []
    case OtherStep(r, _) => if Ambient(r) then [r] else []
    case _ => []
  }

  /** The records of a step that were committed. */
  ghost function StepRecords(s: System, st: Step): seq<Record> {
    var rs := Attempt(s, st);
    if (st.SubmitStep? || st.CreateStep? || st.DecideStep? || st.ClaimStep? || st.FinishStep? || st.EnqueueStep?
        || st.OtherStep?) && st.commits <= |rs|
    then rs[..st.commits]
    else rs
  }

  /** A claim that committed both of its records hands a ticket to the sweep. */
  ghost predicate Claims(s: System, st: Step) {
    st.ClaimStep? && |StepRecords(s, st)| == 2 && st.commits >= 2
  }

  /** What the step does to the volatile state and the histories. */
  ghost function Remember(s: System, st: Step): System {
    match st
    case ListStep =>
      var orders := s.store.tables.orders;
      s.(listed := s.listed + (set id | id in orders && IsAutoDispatchable(orders[id]) :: orders[id]))
    case ClaimStep(pick, holder, ttl, now, _) =>
      if !Claims(s, st) then s
      else
        var rs := ClaimRecords(s.store.tables, pick.id, holder, ttl, now);
        s.(won := s.won + [pick.id], tickets := s.tickets[|s.won| := Ticket(rs[1].order, rs[0].lease, holder, false)])
    case StartStep(n) =>
      if n !in s.tickets || s.tickets[n].started then s
      else s.(tickets := s.tickets[n := s.tickets[n].(started := true)], starts := s.starts + [n])
    case FinishStep(n, _, _, _) =>
      if n !in s.tickets || !s.tickets[n].started then s else s.(tickets := s.tickets - {n})
    case CheckStep(g) =>
      s.(pending := if HasOpenMicrotask(s.store.tables.orders, g.definition.id, g.overrides.repo) then None else Some(g))
    case EnqueueStep(_, _, _, _) => s.(pending := None)
    case RebuildStep => s.(rebuilds := s.rebuilds + 1)
    case CrashStep => s.(listed := {}, tickets := map[], pending := None)
    case _ => s
  }

  /** One step; a step that is not possible in `s` leaves the store alone. */
  ghost function Next(s: System, st: Step): System {
    Remember(s, st).(store := if st.RebuildStep? then Rebuild(s.store) else CommitAll(s.store, StepRecords(s, st)))
  }

  /** The state after any sequence of steps. */
  ghost function Run(steps: seq<Step>): System {
    if steps == [] then INITIAL else Next(Run(steps[..|steps| - 1]), steps[|steps| - 1])
  }
}
