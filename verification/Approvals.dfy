/** Who is asked, and what every answer to a decision means, in every run and spelled out: whom a
    challenge is for, until when, and what becomes of the work order. */
module Approvals {
  import opened Wrappers
  import opened Domain
  import opened EventStore
  import opened StoreInvariant
  import opened ControlPlane
  import opened SystemInvariant
  import opened Safety
  import opened Interruptions
  import Refinement

  // ----- Deciding -----

  /** The answer and the records of a call on the challenge `c`, for the work order `o` and the approval
      row `a` that belong to it. */
  lemma AnswerOf(t: Tables, log: seq<Event>, replayed: map<Id, OrderData>, call: DecideCall, i: Id)
    requires Parts(t, log, replayed) && i in t.challenges && t.challenges[i].tokenHash == call.tokenHash
    ensures FindByHash(t.challenges, call.tokenHash) == Some(t.challenges[i].data)
    ensures var c := t.challenges[i].data; var key := Key(c.order, c.approver);
            && key in t.approvals && t.approvals[key].expiresAt == c.expiresAt
            && t.approvals[key].order == c.order && t.approvals[key].approver == c.approver
            && c.order in t.orders && t.orders[c.order].id == c.order
  {
    hide StoreInvariant.DecisionsInv, StoreInvariant.ChallengedInv, StoreInvariant.CompletionsInv;
    var found := FindByHash(t.challenges, call.tokenHash);
    var j :| j in t.challenges && t.challenges[j].tokenHash == call.tokenHash && t.challenges[j].data == found.value;
    assert i == j;
    ChallengeHasItsRows(t, log, replayed, i);
  }

  lemma DecideOnMeans(t: Tables, c: ChallengeData, call: DecideCall)
    requires var key := Key(c.order, c.approver);
             && key in t.approvals && t.approvals[key].expiresAt == c.expiresAt
             && t.approvals[key].order == c.order && t.approvals[key].approver == c.approver
             && c.order in t.orders && t.orders[c.order].id == c.order
    ensures var o, a := t.orders[c.order], t.approvals[Key(c.order, c.approver)];
            var approves := call.decision == Decision.Approved;
            var o' := o.(status := if approves then Status.Approved else Status.Failed, updatedAt := call.nowApply);
            DecideOn(t, c, call) ==
            if c.state != ChallengeState.Pending then ([], Failure(AlreadyUsed))
            else if call.now > c.expiresAt
            then ([PutChallenge(c.(state := ChallengeState.Expired, updatedAt := call.now))], Failure(DecideError.Expired))
            else if call.actor != Actor(c.approver, c.targetUser, c.targetChat) then ([], Failure(DecideError.WrongApprover))
            else if call.nowApply > c.expiresAt then ([], Failure(DecideError.Expired))
            else if o.status != Status.AwaitingApproval then ([], Failure(Unavailable(InvalidTransition(o.status))))
            else ([PutOrder(OrderApprovalDecided, o'),
                   PutApproval(a.(decision := Some(if approves then Decision.Approved else Decision.Rejected))),
                   PutChallenge(c.(state := if approves then ChallengeState.Approved else ChallengeState.Rejected,
                                   decision := Some(call.decision), updatedAt := call.now))],
                  Success(o'))
  {
  }

  /** Every answer to a call, in every run: unknown, used, overdue and foreign calls are refused in this
      order and write nothing but the mark of an overdue challenge; what is left settles the work order
      as Approved if the decision approves and as Failed if it rejects. */
  lemma DecisionIsAnsweredExactly(steps: seq<Step>, call: DecideCall, i: Id)
    requires var rows := Run(steps).store.tables.challenges; i in rows && rows[i].tokenHash == call.tokenHash
    ensures var t := Run(steps).store.tables; var c := t.challenges[i].data;
            && c.order in t.orders && Key(c.order, c.approver) in t.approvals
            && var o, a := t.orders[c.order], t.approvals[Key(c.order, c.approver)];
               var approves := call.decision == Decision.Approved;
               var o' := o.(status := if approves then Status.Approved else Status.Failed, updatedAt := call.nowApply);
               DecideOutcome(t, call) ==
               if c.state != ChallengeState.Pending then ([], Failure(AlreadyUsed))
               else if call.now > c.expiresAt
               then ([PutChallenge(c.(state := ChallengeState.Expired, updatedAt := call.now))], Failure(DecideError.Expired))
               else if call.actor != Actor(c.approver, c.targetUser, c.targetChat) then ([], Failure(DecideError.WrongApprover))
               else if call.nowApply > c.expiresAt then ([], Failure(DecideError.Expired))
               else if o.status != Status.AwaitingApproval then ([], Failure(Unavailable(InvalidTransition(o.status))))
               else ([PutOrder(OrderApprovalDecided, o'),
                      PutApproval(a.(decision := Some(if approves then Decision.Approved else Decision.Rejected))),
                      PutChallenge(c.(state := if approves then ChallengeState.Approved else ChallengeState.Rejected,
                                      decision := Some(call.decision), updatedAt := call.now))],
                     Success(o'))
  {
    hide ControlPlane.Run, StoreInvariant.StoreInv, SystemInvariant.VolatileInv, StoreInvariant.Parts, DecideOn;
    RunInv(steps);
    var s := Run(steps);
    SystemStoreInv(s);
    AnswerOf(s.store.tables, s.store.log, Replay(s.store.log).orders, call, i);
    DecideOnMeans(s.store.tables, s.store.tables.challenges[i].data, call);
  }

  /** And a token no challenge was made with is unknown, and only such a token. */
  lemma UnknownTokenExactly(steps: seq<Step>, call: DecideCall)
    ensures var t := Run(steps).store.tables;
            DecideOutcome(t, call).1 == Failure(UnknownToken) <==>
            forall i | i in t.challenges :: t.challenges[i].tokenHash != call.tokenHash
  {
    hide ControlPlane.Run;
    var t := Run(steps).store.tables;
    if i :| i in t.challenges && t.challenges[i].tokenHash == call.tokenHash {
      DecisionIsAnsweredExactly(steps, call, i);
    }
  }

  /** What a successful answer says: an approval approves, and a rejection fails, the work order; the
      actor is the one the challenge was made for, and both clock readings are in time. */
  lemma SuccessMeans(steps: seq<Step>, call: DecideCall)
    requires DecideOutcome(Run(steps).store.tables, call).1.Success?
    ensures var t := Run(steps).store.tables; var o := DecideOutcome(t, call).1.value;
            && (call.decision == Decision.Approved ==> o.status == Status.Approved)
            && (call.decision == Decision.Rejected ==> o.status == Status.Failed)
            && exists i | i in t.challenges ::
                 var c := t.challenges[i].data;
                 && t.challenges[i].tokenHash == call.tokenHash && c.state == ChallengeState.Pending && c.order == o.id
                 && call.actor == Actor(c.approver, c.targetUser, c.targetChat)
                 && call.now <= c.expiresAt && call.nowApply <= c.expiresAt
  {
    hide ControlPlane.Run, DecideOutcome;
    var t := Run(steps).store.tables;
    UnknownTokenExactly(steps, call);
    var i :| i in t.challenges && t.challenges[i].tokenHash == call.tokenHash;
    DecisionIsAnsweredExactly(steps, call, i);
    LookUpsFindTheirOwn(steps, call.tokenHash);
  }

  // ----- Creating -----

  /** Until when a challenge created by `c` may be decided. */
  ghost function Deadline(t: Tables, c: CreateCall): Time
    requires c.order in t.orders
  {
    var key := Key(c.order, c.approver);
    if t.orders[c.order].status != Status.AwaitingApproval then c.nowLocked + c.ttl
    else if key in t.approvals then t.approvals[key].expiresAt
    else c.now + c.ttl
  }

  lemma CreateRecordsMean(t: Tables, c: CreateCall)
    ensures var rs := CreateRecords(t, c);
            && (rs != [] <==>
                  && c.order in t.orders
                  && t.orders[c.order].status in {Status.Submitted, Status.Leased, Status.AwaitingApproval}
                  && (t.orders[c.order].status == Status.AwaitingApproval && Key(c.order, c.approver) in t.approvals ==>
                        t.approvals[Key(c.order, c.approver)].decision.None?))
            && (rs != [] ==>
                  && |rs| == (if t.orders[c.order].status == Status.AwaitingApproval then 2 else 3)
                  && (forall k | 0 <= k < |rs| - 1 :: !rs[k].PutChallenge?)
                  && rs[|rs| - 1] == PutChallenge(
                       ChallengeData(c.challenge, c.order, c.approver, c.channel, c.user, c.chat, c.tokenHash,
                                     Deadline(t, c), ChallengeState.Pending, None, c.nowLocked, c.nowLocked)))
            && (|rs| == 3 ==>
                  var o := t.orders[c.order];
                  rs[0] == PutOrder(OrderAwaitingApproval,
                                    o.(status := Status.AwaitingApproval, updatedAt := c.nowLocked,
                                       attention := o.attention + [Attention(Warn, "approval required")])))
  {
  }

  /** A challenge can be created exactly while the work order is Submitted, Leased or awaits approval: in
      no run is the approval of a work order that awaits it already decided. */
  lemma CreatableExactly(steps: seq<Step>, c: CreateCall)
    ensures var t := Run(steps).store.tables;
            CreateRecords(t, c) != [] <==>
            c.order in t.orders && t.orders[c.order].status in {Status.Submitted, Status.Leased, Status.AwaitingApproval}
  {
    hide ControlPlane.Run, CreateRecords, StoreInvariant.Parts, SystemInvariant.VolatileInv;
    RunInv(steps);
    var s := Run(steps);
    SystemStoreInv(s);
    CreateRecordsMean(s.store.tables, c);
    if c.order in s.store.tables.orders {
      UnsettledRows(s.store.tables, s.store.log, Replay(s.store.log).orders, Key(c.order, c.approver));
    }
  }

  lemma LastChallengeIsStored(s: Store, rs: seq<Record>, c: ChallengeData)
    requires rs != [] && rs[|rs| - 1] == PutChallenge(c) && forall k | 0 <= k < |rs| - 1 :: !rs[k].PutChallenge?
    requires c.id !in s.tables.challenges && forall i | i in s.tables.challenges :: s.tables.challenges[i].tokenHash != c.tokenHash
    ensures CommitAll(s, rs).tables.challenges == s.tables.challenges[c.id := ChallengeRow(c.tokenHash, c)]
  {
    var n := |rs| - 1;
    NoChallengeWritten(s, rs[..n]);
    assert !TokenClash(CommitAll(s, rs[..n]).tables.challenges, c);
  }

  /** The step that creates a challenge and is not stopped. */
  ghost predicate Creates(s: System, c: CreateCall, commits: nat) {
    && c.challenge !in s.store.tables.challenges
    && (forall i | i in s.store.tables.challenges :: s.store.tables.challenges[i].tokenHash != c.tokenHash)
    && CreateRecords(s.store.tables, c) != [] && commits >= |CreateRecords(s.store.tables, c)|
  }

  lemma ChallengeIsStored(s: System, c: CreateCall, commits: nat)
    requires Creates(s, c, commits)
    ensures var rows := Next(s, CreateStep(c, commits)).store.tables.challenges;
            && c.order in s.store.tables.orders && c.challenge in rows
            && rows[c.challenge] == ChallengeRow(c.tokenHash,
                 ChallengeData(c.challenge, c.order, c.approver, c.channel, c.user, c.chat, c.tokenHash,
                               Deadline(s.store.tables, c), ChallengeState.Pending, None, c.nowLocked, c.nowLocked))
  {
    hide CreateRecords, EventStore.CommitAll;
    var rs := CreateRecords(s.store.tables, c);
    CreateRecordsMean(s.store.tables, c);
    var st := CreateStep(c, commits);
    assert rs[..|rs|] == rs;
    assert StepRecords(s, st) == rs;
    LastChallengeIsStored(s.store, rs, rs[|rs| - 1].challenge);
  }

  lemma AwaitingIsUncarried(s: Store, i: Id)
    requires StoreInv(s) && i in s.tables.challenges
    requires var o := s.tables.challenges[i].data.order;
             o in s.tables.orders && s.tables.orders[o].status == Status.AwaitingApproval
    ensures !IsDecided(s.tables.challenges[i].data.state)
  {
    hide StoreInvariant.StoreInv;
    AwaitingIsUndecided(s, s.tables.challenges[i].data.order);
    CarriedIsDecided(s, s.tables.challenges[i].data.order);
  }

  /** Across both calls: whoever a challenge was created for can decide it, however the run went on,
      while the work order awaits approval and the challenge is neither overdue nor marked so; anyone
      else, by name, user or chat, is told that he is the wrong approver. */
  lemma InvitedPersonDecides(steps: seq<Step>, c: CreateCall, commits: nat, more: seq<Step>, call: DecideCall)
    requires Creates(Run(steps), c, commits) && call.tokenHash == c.tokenHash
    requires var t := Run(steps + [CreateStep(c, commits)] + more).store.tables;
             && c.order in t.orders && t.orders[c.order].status == Status.AwaitingApproval
             && (c.challenge in t.challenges ==> t.challenges[c.challenge].data.state != ChallengeState.Expired)
    requires c.order in Run(steps).store.tables.orders
    requires call.now <= Deadline(Run(steps).store.tables, c)
    ensures var answer := DecideOutcome(Run(steps + [CreateStep(c, commits)] + more).store.tables, call).1;
            && (call.actor == Actor(c.approver, c.user, c.chat) && call.nowApply <= Deadline(Run(steps).store.tables, c) ==>
                  && answer.Success? && answer.value.id == c.order
                  && answer.value.status == if call.decision == Decision.Approved then Status.Approved else Status.Failed)
            && (call.actor.approver != c.approver || call.actor.telegramUser != c.user || call.actor.telegramChat != c.chat ==>
                  answer == Failure(DecideError.WrongApprover))
  {
    hide ControlPlane.Run, ControlPlane.Next, Creates, DecideOutcome, Deadline, SystemInvariant.SystemInv,
         StoreInvariant.StoreInv, IsDecided;
    var created := steps + [CreateStep(c, commits)];
    var all := created + more;
    ChallengeIsStored(Run(steps), c, commits);
    CreatedRun(steps, CreateStep(c, commits));
    assert all[..|created|] == created;
    RunMovesChallenges(all, |created|);
    var t := Run(all).store.tables;
    RunInv(all);
    StoreOf(Run(all));
    AwaitingIsUncarried(Run(all).store, c.challenge);
    DecidedOrNot(t.challenges[c.challenge].data.state);
    DecisionIsAnsweredExactly(all, call, c.challenge);
    LookUpsFindTheirOwn(all, call.tokenHash);
  }

  lemma CreatedRun(steps: seq<Step>, st: Step)
    ensures Run(steps + [st]) == Next(Run(steps), st)
  {
    hide ControlPlane.Next;
    assert (steps + [st])[..|steps|] == steps;
  }

  lemma StoreOf(s: System)
    requires SystemInv(s)
    ensures StoreInv(s.store)
  {
    hide StoreInvariant.StoreInv;
  }

  lemma DecidedOrNot(state: ChallengeState)
    ensures IsDecided(state) || state == ChallengeState.Pending || state == ChallengeState.Expired
  {
  }
}
