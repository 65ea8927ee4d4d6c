/** Decisions that were interrupted between their three transactions: the log has the decision, the
    challenge does not, and no later step mends it. */
module Interruptions {
  import opened Wrappers
  import opened Domain
  import opened EventStore
  import Refinement
  import opened StoreInvariant
  import opened ControlPlane
  import opened SystemInvariant
  import opened Safety

  predicate IsDecided(state: ChallengeState) {
    state == ChallengeState.Approved || state == ChallengeState.Rejected
  }

  /** Some challenge of the work order carries a decision. */
  ghost predicate Carried(t: Tables, id: Id) {
    exists i | i in t.challenges :: t.challenges[i].data.order == id && IsDecided(t.challenges[i].data.state)
  }

  /** The step decides the work order but is stopped after one or two of its three transactions. */
  ghost predicate CutShort(s: System, st: Step, id: Id) {
    && st.DecideStep? && 0 < st.commits < |Attempt(s, st)|
    && Attempt(s, st)[0].PutOrder? && Attempt(s, st)[0].order.id == id
  }

  ghost predicate WasCutShort(steps: seq<Step>, id: Id) {
    exists i | 0 <= i < |steps| :: CutShort(Run(steps[..i]), steps[i], id)
  }

  // ----- What a step writes about decisions -----

  /** A record that neither logs a decision nor marks a challenge with one. */
  predicate Quiet(r: Record) {
    && !(r.PutOrder? && r.name.OrderApprovalDecided?)
    && !(r.PutChallenge? && IsDecided(r.challenge.state))
  }

  /** The three records of a decision on a work order that awaits approval. */
  predicate Decides(t: Tables, rs: seq<Record>) {
    && |rs| == 3
    && rs[0].PutOrder? && rs[0].name.OrderApprovalDecided?
    && rs[0].order.id in t.orders && t.orders[rs[0].order.id].status == Status.AwaitingApproval
    && rs[1].PutApproval?
    && rs[2].PutChallenge?
    && var c := rs[2].challenge;
       && c.order == rs[0].order.id && IsDecided(c.state)
       && c.id in t.challenges && t.challenges[c.id].data.tokenHash == c.tokenHash
  }

  lemma OthersAreQuiet(s: System, st: Step)
    requires !st.DecideStep?
    ensures forall r | r in Attempt(s, st) :: Quiet(r)
  {
  }

  lemma DecideOnIsQuietOrDecides(t: Tables, c: ChallengeData, call: DecideCall)
    requires c.id in t.challenges && t.challenges[c.id].data == c
    requires c.order in t.orders ==> t.orders[c.order].id == c.order
    ensures var rs := DecideOn(t, c, call).0; (forall r | r in rs :: Quiet(r)) || Decides(t, rs)
  {
    DecideShape(t, c, call);
  }

  lemma DecideIsQuietOrDecides(t: Tables, log: seq<Event>, replayed: map<Id, OrderData>, call: DecideCall)
    requires Parts(t, log, replayed)
    ensures var rs := DecideOutcome(t, call).0; (forall r | r in rs :: Quiet(r)) || Decides(t, rs)
  {
    hide Quiet, Decides, ControlPlane.DecideOn, StoreInvariant.ApprovalsInv, StoreInvariant.ChallengesInv,
         StoreInvariant.DecisionsInv, StoreInvariant.ChallengedInv, StoreInvariant.CompletionsInv;
    var found := FindByHash(t.challenges, call.tokenHash);
    if found.Some? {
      FoundIsARow(t, log, replayed, call.tokenHash);
      DecideOnIsQuietOrDecides(t, found.value, call);
    }
  }

  lemma QuietOrDecides(s: System, st: Step)
    requires SystemInv(s)
    ensures var rs := Attempt(s, st);
            (forall r | r in rs :: Quiet(r)) || (st.DecideStep? && Decides(s.store.tables, rs))
  {
    hide Quiet, Decides, VolatileInv, StoreInvariant.Parts, ControlPlane.DecideOutcome;
    if st.DecideStep? {
      DecideIsQuietOrDecides(s.store.tables, s.store.log, Replay(s.store.log).orders, st.decide);
    } else {
      OthersAreQuiet(s, st);
    }
  }

  // ----- What records do to log and challenges -----

  lemma QuietRecordAdds(s: Store, r: Record, id: Id)
    requires Quiet(r)
    ensures Decisions(Commit(s, r).log, id) == Decisions(s.log, id)
    ensures Carried(Commit(s, r).tables, id) ==> Carried(s.tables, id)
  {
    DecisionsSnoc(s.log, EventOf(r), id);
  }

  lemma {:induction false} QuietRecordsAdd(s: Store, rs: seq<Record>, id: Id)
    requires forall r | r in rs :: Quiet(r)
    ensures Decisions(CommitAll(s, rs).log, id) == Decisions(s.log, id)
    ensures Carried(CommitAll(s, rs).tables, id) ==> Carried(s.tables, id)
  {
    hide Quiet, Carried, EventStore.Commit, StoreInvariant.Decisions;
    if rs != [] {
      QuietRecordsAdd(s, rs[..|rs| - 1], id);
      QuietRecordAdds(CommitAll(s, rs[..|rs| - 1]), rs[|rs| - 1], id);
    }
  }

  lemma CarriedStays(t: Tables, t': Tables, id: Id)
    requires ChallengesMove(t.challenges, t'.challenges) && Carried(t, id)
    ensures Carried(t', id)
  {
    var i :| i in t.challenges && t.challenges[i].data.order == id && IsDecided(t.challenges[i].data.state);
    assert t'.challenges[i].data == t.challenges[i].data;
  }

  /** The first record of a decision is the decision; only the third reaches the challenge. */
  lemma DecidingRecords(s: Store, rs: seq<Record>, k: nat, id: Id)
    requires StoreInv(s) && Decides(s.tables, rs) && k <= 3
    ensures var s' := CommitAll(s, rs[..k]);
            && Decisions(s'.log, id) == Decisions(s.log, id) + (if k > 0 && rs[0].order.id == id then 1 else 0)
            && (Carried(s'.tables, id) ==> Carried(s.tables, id) || (k == 3 && rs[0].order.id == id))
            && (k == 3 && rs[0].order.id == id ==> Carried(s'.tables, id))
  {
    hide Quiet, Carried, StoreInvariant.StoreInv, StoreInvariant.Decisions, EventStore.CommitAll, EventStore.Commit;
    CommitsInTurn(s, rs, k);
    if k > 0 {
      OrderIsNoChallenge(s, rs, id);
      if k > 1 {
        ApprovalIsQuiet(Commit(s, rs[0]), s.tables, rs, id);
        if k > 2 {
          ChallengesOf(s);
          ChallengeCarries(s.tables, Commit(Commit(s, rs[0]), rs[1]), rs, id);
        }
      }
    }
  }

  lemma CommitsInTurn(s: Store, rs: seq<Record>, k: nat)
    requires |rs| == 3 && k <= 3
    ensures CommitAll(s, rs[..k]) ==
            if k == 0 then s else if k == 1 then Commit(s, rs[0]) else if k == 2 then Commit(Commit(s, rs[0]), rs[1])
            else Commit(Commit(Commit(s, rs[0]), rs[1]), rs[2])
  {
    hide EventStore.Commit;
    if k > 0 {
      CommitsInTurn(s, rs, k - 1);
      assert rs[..k][..k - 1] == rs[..k - 1];
    }
  }

  lemma OrderIsNoChallenge(s: Store, rs: seq<Record>, id: Id)
    requires Decides(s.tables, rs)
    ensures var s' := Commit(s, rs[0]);
            && Decisions(s'.log, id) == Decisions(s.log, id) + (if rs[0].order.id == id then 1 else 0)
            && s'.tables.challenges == s.tables.challenges && (Carried(s'.tables, id) <==> Carried(s.tables, id))
  {
    DecisionsSnoc(s.log, EventOf(rs[0]), id);
  }

  lemma ApprovalIsQuiet(s: Store, t: Tables, rs: seq<Record>, id: Id)
    requires Decides(t, rs)
    ensures var s' := Commit(s, rs[1]);
            && Decisions(s'.log, id) == Decisions(s.log, id)
            && s'.tables.challenges == s.tables.challenges && (Carried(s'.tables, id) <==> Carried(s.tables, id))
  {
    DecisionsSnoc(s.log, EventOf(rs[1]), id);
  }

  lemma ChallengesOf(s: Store)
    requires StoreInv(s)
    ensures ChallengesInv(s.tables.challenges, s.tables.approvals)
  {
    hide StoreInvariant.OrdersInv, StoreInvariant.ApprovalsInv, StoreInvariant.ChallengesInv, Refinement.Families,
         StoreInvariant.DecisionsInv, StoreInvariant.ChallengedInv, StoreInvariant.CompletionsInv;
  }

  lemma UpsertCarries(t: map<Id, ChallengeRow>, approvals: map<Key, ApprovalData>, c: ChallengeData)
    requires ChallengesInv(t, approvals) && c.id in t && t[c.id].data.tokenHash == c.tokenHash
    ensures UpsertChallenge(t, c) == Some(t[c.id := ChallengeRow(t[c.id].tokenHash, c)])
  {
    assert !TokenClash(t, c);
  }

  lemma ChallengeCarries(before: Tables, s: Store, rs: seq<Record>, id: Id)
    requires Decides(before, rs) && s.tables.challenges == before.challenges
    requires ChallengesInv(before.challenges, before.approvals)
    ensures var s' := Commit(s, rs[2]);
            && Decisions(s'.log, id) == Decisions(s.log, id)
            && (Carried(s'.tables, id) ==> Carried(s.tables, id) || rs[0].order.id == id)
            && (rs[0].order.id == id ==> Carried(s'.tables, id))
  {
    hide ChallengesInv, UpsertChallenge;
    DecisionsSnoc(s.log, EventOf(rs[2]), id);
    var t, c := s.tables.challenges, rs[2].challenge;
    UpsertCarries(t, before.approvals, c);
    assert Commit(s, rs[2]).tables.challenges[c.id].data == c;
  }

  // ----- Every step -----

  /** A carried decision is in the log, and the log holds one decision of a work order at most. */
  lemma CarriedIsDecided(s: Store, id: Id)
    requires StoreInv(s)
    ensures Decisions(s.log, id) <= 1
    ensures Carried(s.tables, id) ==> Decisions(s.log, id) == 1
  {
    hide StoreInvariant.OrdersInv, StoreInvariant.ApprovalsInv, StoreInvariant.ChallengesInv, Refinement.Families,
         StoreInvariant.ChallengedInv, StoreInvariant.CompletionsInv, StoreInvariant.Decisions, StoreInvariant.DecidedAs;
    var t, replayed := s.tables, Replay(s.log).orders;
    if Carried(t, id) {
      CarriedIsSettled(t, replayed, id);
    }
  }

  lemma CarriedIsSettled(t: Tables, replayed: map<Id, OrderData>, id: Id)
    requires ChallengesInv(t.challenges, t.approvals) && ApprovalsInv(t.approvals, replayed) && Carried(t, id)
    ensures id in replayed && IsSettled(replayed[id].status)
  {
    var i :| i in t.challenges && t.challenges[i].data.order == id && IsDecided(t.challenges[i].data.state);
    var c := t.challenges[i].data;
    assert Backed(c, t.approvals);
    assert Key(c.order, c.approver) in t.approvals;
  }

  lemma AwaitingIsUndecided(s: Store, id: Id)
    requires StoreInv(s) && id in s.tables.orders && s.tables.orders[id].status == Status.AwaitingApproval
    ensures Decisions(s.log, id) == 0
  {
    assert DecisionsInv(s.log, Replay(s.log).orders);
  }

  /** `decided` is the number of decisions in the log, `carried` whether a challenge shows one. */
  lemma StepCarries(s: System, st: Step, id: Id)
    requires SystemInv(s)
    ensures var decided, decided' := Decisions(s.store.log, id), Decisions(Next(s, st).store.log, id);
            var carried, carried' := Carried(s.store.tables, id), Carried(Next(s, st).store.tables, id);
            || (decided' == decided && (carried' <==> carried) && !CutShort(s, st, id))
            || (decided == 0 && decided' == 1 && (carried' <==> !CutShort(s, st, id)))
  {
    hide ControlPlane.Attempt, ControlPlane.Remember, StoreInvariant.StoreInv, StoreInvariant.Decisions, Carried,
         Quiet, VolatileInv, EventStore.Rebuild, EventStore.CommitAll;
    StepMovesChallenges(s, st);
    if Carried(s.store.tables, id) {
      CarriedStays(s.store.tables, Next(s, st).store.tables, id);
    }
    CarriedIsDecided(s.store, id);
    QuietOrDecides(s, st);
    var rs := Attempt(s, st);
    if st.RebuildStep? {
      RebuildIsQuiet(s.store, id);
    } else if forall r | r in rs :: Quiet(r) {
      AttemptedOrderIsLoud(s, st, id);
      QuietRecordsAdd(s.store, StepRecords(s, st), id);
    } else {
      var k := if st.commits <= 3 then st.commits else 3;
      assert rs[..3] == rs;
      DecidingRecords(s.store, rs, k, id);
      AwaitingIsUndecided(s.store, rs[0].order.id);
    }
  }

  lemma RebuildIsQuiet(s: Store, id: Id)
    requires StoreInv(s)
    ensures Decisions(Rebuild(s).log, id) == Decisions(s.log, id)
    ensures Carried(Rebuild(s).tables, id) <==> Carried(s.tables, id)
  {
    hide StoreInvariant.Parts, EventStore.Rebuild, StoreInvariant.Decisions;
    RebuildKeepsChallenges(s);
  }

  /** A cut step begins with a decision, so one whose records are all quiet is not cut. */
  lemma AttemptedOrderIsLoud(s: System, st: Step, id: Id)
    requires SystemInv(s) && forall r | r in Attempt(s, st) :: Quiet(r)
    ensures !CutShort(s, st, id)
  {
    if st.DecideStep? && Attempt(s, st) != [] {
      var rs := Attempt(s, st);
      assert rs[0] in rs;
      var found := FindByHash(s.store.tables.challenges, st.decide.tokenHash);
      DecideShape(s.store.tables, found.value, st.decide);
    }
  }

  // ----- The claim -----

  /** A decision in the log is carried by a challenge if and only if the call that made it was not
      stopped between its transactions: a decision cut short is never completed, by any later step. */
  lemma {:induction false} DecisionIsCarriedExactly(steps: seq<Step>, id: Id)
    ensures var s := Run(steps).store;
            && (Decisions(s.log, id) == 0 ==> !Carried(s.tables, id) && !WasCutShort(steps, id))
            && (Decisions(s.log, id) == 1 ==> (Carried(s.tables, id) <==> !WasCutShort(steps, id)))
  {
    if steps != [] {
      hide ControlPlane.Next, SystemInvariant.SystemInv, CutShort, Carried, StoreInvariant.Decisions;
      var n := |steps| - 1;
      DecisionIsCarriedExactly(steps[..n], id);
      RunInv(steps[..n]);
      StepCarries(Run(steps[..n]), steps[n], id);
      StoreInvOf(steps[..n], id);
      CutOrNot(steps, id);
    }
  }

  lemma StoreInvOf(steps: seq<Step>, id: Id)
    ensures Decisions(Run(steps).store.log, id) <= 1
  {
    DecidedAtMostOnce(steps, id);
  }

  lemma CutOrNot(steps: seq<Step>, id: Id)
    requires steps != []
    ensures var n := |steps| - 1;
            WasCutShort(steps, id) <==> WasCutShort(steps[..n], id) || CutShort(Run(steps[..n]), steps[n], id)
  {
    hide ControlPlane.Run, CutShort;
    var n := |steps| - 1;
    assert forall i | 0 <= i < n :: steps[..n][..i] == steps[..i] && steps[..n][i] == steps[i];
  }

  /** Nor does anyone succeed with another token: once the log holds a decision of a work order, no
      call on any challenge of it is answered with success. */
  lemma DecidedOrderIsNotDecidedAgain(steps: seq<Step>, call: DecideCall)
    ensures var s := Run(steps).store; var found := FindByHash(s.tables.challenges, call.tokenHash);
            found.Some? && Decisions(s.log, found.value.order) == 1 ==> DecideOutcome(s.tables, call).1.Failure?
  {
    hide ControlPlane.Run, StoreInvariant.Decisions, StoreInvariant.StoreInv, DecideOn;
    RunInv(steps);
    var s := Run(steps).store;
    var found := FindByHash(s.tables.challenges, call.tokenHash);
    if found.Some? && DecideOn(s.tables, found.value, call).1.Success? {
      SuccessIsOfAwaiting(s.tables, found.value, call);
      AwaitingIsUndecided(s, found.value.order);
    }
  }

  lemma SuccessIsOfAwaiting(t: Tables, c: ChallengeData, call: DecideCall)
    requires DecideOn(t, c, call).1.Success?
    ensures c.order in t.orders && t.orders[c.order].status == Status.AwaitingApproval
  {
  }
}
