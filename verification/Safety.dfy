/** Safety of the control plane over every run: any interleaving of submissions, challenges,
    decisions, sweeps, generator ticks, rebuilds and crashes, with every call stopped after any
    number of its transactions. */
module Safety {
  import opened Wrappers
  import opened Domain
  import opened EventStore
  import opened Refinement
  import opened StoreInvariant
  import opened Microtasks
  import opened ControlPlane
  import opened SystemInvariant
  import Json

  // ----- Approvals -----

  /** However many challenges are outstanding, a work order is decided at most once. */
  lemma DecidedAtMostOnce(steps: seq<Step>, id: Id)
    ensures Decisions(Run(steps).store.log, id) <= 1
  {
    RunInv(steps);
    var s := Run(steps).store;
    assert DecisionsInv(s.log, Replay(s.log).orders);
  }

  /** A decided challenge has its decision in the approval row, and a decided approval row has its
      decision in the log: the writes reach the disk in that order, at every crash point. */
  lemma DecisionsReachTheLogFirst(steps: seq<Step>)
    ensures var s := Run(steps).store; var t := s.tables;
            && (forall i | i in t.challenges ::
                  var c := t.challenges[i].data;
                  var k := Key(c.order, c.approver);
                  && (c.state == ChallengeState.Approved ==>
                        k in t.approvals && t.approvals[k].decision == Some(Decision.Approved))
                  && (c.state == ChallengeState.Rejected ==>
                        k in t.approvals && t.approvals[k].decision == Some(Decision.Rejected)))
            && (forall k | k in t.approvals ::
                  && (t.approvals[k].decision == Some(Decision.Approved) ==> DecidedAs(s.log, k.order, Status.Approved))
                  && (t.approvals[k].decision == Some(Decision.Rejected) ==> DecidedAs(s.log, k.order, Status.Failed)))
  {
    RunInv(steps);
    var s := Run(steps).store;
    var t, replayed := s.tables, Replay(s.log).orders;
    assert Parts(t, s.log, replayed);
    forall k | k in t.approvals && t.approvals[k].decision.Some?
      ensures DecidedAs(s.log, k.order, Settled(t.approvals[k].decision.value))
    {
      assert IsSettled(replayed[k.order].status);
    }
    assert forall i | i in t.challenges :: Backed(t.challenges[i].data, t.approvals);
  }

  predicate HasItsRows(t: Tables, c: ChallengeData) {
    var k := Key(c.order, c.approver);
    k in t.approvals && t.approvals[k].expiresAt == c.expiresAt && c.order in t.orders
  }

  lemma ChallengeHasItsRows(t: Tables, log: seq<Event>, replayed: map<Id, OrderData>, i: Id)
    requires Parts(t, log, replayed) && i in t.challenges
    ensures HasItsRows(t, t.challenges[i].data)
  {
    assert Backed(t.challenges[i].data, t.approvals);
  }

  lemma FoundIsARow(t: Tables, log: seq<Event>, replayed: map<Id, OrderData>, hash: string)
    requires Parts(t, log, replayed) && FindByHash(t.challenges, hash).Some?
    ensures var c := FindByHash(t.challenges, hash).value;
            c.id in t.challenges && t.challenges[c.id].data == c
  {
    var c := FindByHash(t.challenges, hash).value;
    var i :| i in t.challenges && t.challenges[i].data == c;
    assert c.id == i;
  }

  /** Every challenge has its approval row, with the same expiry, and its work-order row. */
  lemma ChallengesHaveTheirRows(steps: seq<Step>)
    ensures var t := Run(steps).store.tables;
            forall i | i in t.challenges :: HasItsRows(t, t.challenges[i].data)
  {
    RunInv(steps);
    var s := Run(steps).store;
    forall i | i in s.tables.challenges
      ensures HasItsRows(s.tables, s.tables.challenges[i].data)
    {
      ChallengeHasItsRows(s.tables, s.log, Replay(s.log).orders, i);
    }
  }

  /** So neither of the two "record missing" answers is ever given. */
  lemma NoRecordIsEverMissing(steps: seq<Step>, call: DecideCall)
    ensures var answer := DecideOutcome(Run(steps).store.tables, call).1;
            answer != Failure(ApprovalMissing) && answer != Failure(OrderMissing)
  {
    RunInv(steps);
    var s := Run(steps).store;
    var found := FindByHash(s.tables.challenges, call.tokenHash);
    if found.Some? {
      FoundIsARow(s.tables, s.log, Replay(s.log).orders, call.tokenHash);
      ChallengeHasItsRows(s.tables, s.log, Replay(s.log).orders, found.value.id);
      AnswerWithRows(s.tables, found.value, call);
    }
  }

  lemma AnswerWithRows(t: Tables, c: ChallengeData, call: DecideCall)
    requires HasItsRows(t, c)
    ensures var answer := DecideOn(t, c, call).1;
            answer != Failure(ApprovalMissing) && answer != Failure(OrderMissing)
  {
  }

  /** A look-up finds the document it asked for: in every run the rows carry the keys they are stored
      under, and a token hash leads to the one challenge made with it. */
  lemma LookUpsFindTheirOwn(steps: seq<Step>, hash: string)
    ensures var t := Run(steps).store.tables;
            && (forall id | id in t.orders :: t.orders[id].id == id)
            && (forall k | k in t.approvals :: t.approvals[k].order == k.order && t.approvals[k].approver == k.who)
            && (forall i | i in t.challenges && t.challenges[i].data.tokenHash == hash ::
                  t.challenges[i].data.id == i && FindByHash(t.challenges, hash) == Some(t.challenges[i].data))
  {
    hide ControlPlane.Run, StoreInvariant.DecisionsInv, StoreInvariant.ChallengedInv, StoreInvariant.CompletionsInv,
         Refinement.Families, SystemInvariant.VolatileInv;
    RunInv(steps);
    var t := Run(steps).store.tables;
    forall i | i in t.challenges && t.challenges[i].data.tokenHash == hash
      ensures t.challenges[i].data.id == i && FindByHash(t.challenges, hash) == Some(t.challenges[i].data)
    {
      assert t.challenges[i].tokenHash == hash;
    }
  }

  // ----- What later steps do to a challenge -----

  predicate SameChallenge(c: ChallengeData, c': ChallengeData) {
    && c.id == c'.id && c.order == c'.order && c.approver == c'.approver
    && c.tokenHash == c'.tokenHash && c.expiresAt == c'.expiresAt && c.channel == c'.channel
    && c.targetUser == c'.targetUser && c.targetChat == c'.targetChat && c.createdAt == c'.createdAt
  }

  /** Challenges stay, and once they are no longer pending they never change again. */
  ghost predicate ChallengesMove(c: map<Id, ChallengeRow>, c': map<Id, ChallengeRow>) {
    forall i | i in c ::
      && i in c' && c'[i].tokenHash == c[i].tokenHash
      && SameChallenge(c[i].data, c'[i].data)
      && (c[i].data.state != Pending ==> c'[i].data == c[i].data)
  }

  /** A challenge record is new, or the successor of a row still pending. */
  predicate ChallengeSucceeds(t: map<Id, ChallengeRow>, r: Record) {
    r.PutChallenge? && r.challenge.id in t ==>
      t[r.challenge.id].data.state == Pending && SameChallenge(t[r.challenge.id].data, r.challenge)
  }

  predicate ChallengeComesLast(t: map<Id, ChallengeRow>, rs: seq<Record>) {
    && (forall r | r in rs :: ChallengeSucceeds(t, r))
    && (forall i | 0 <= i < |rs| - 1 :: !rs[i].PutChallenge?)
  }

  lemma DecideSucceeds(t: Tables, c: ChallengeData, call: DecideCall)
    requires c.id in t.challenges && t.challenges[c.id].data == c
    ensures ChallengeComesLast(t.challenges, DecideOn(t, c, call).0)
  {
    DecideShape(t, c, call);
  }

  lemma CreateSucceeds(t: Tables, c: CreateCall)
    requires c.challenge !in t.challenges
    ensures ChallengeComesLast(t.challenges, CreateRecords(t, c))
  {
  }

  lemma DecideOutcomeSucceeds(s: Store, d: DecideCall)
    requires StoreInv(s)
    ensures ChallengeComesLast(s.tables.challenges, DecideOutcome(s.tables, d).0)
  {
    var found := FindByHash(s.tables.challenges, d.tokenHash);
    if found.Some? {
      FoundIsARow(s.tables, s.log, Replay(s.log).orders, d.tokenHash);
      DecideSucceeds(s.tables, found.value, d);
    }
  }

  lemma OthersWriteNoChallenge(s: System, st: Step)
    requires !st.CreateStep? && !st.DecideStep?
    ensures forall r | r in Attempt(s, st) :: !r.PutChallenge?
  {
  }

  lemma AttemptedChallengeSucceeds(s: System, st: Step)
    requires SystemInv(s)
    ensures ChallengeComesLast(s.store.tables.challenges, Attempt(s, st))
  {
    if st.CreateStep? {
      if st.create.challenge !in s.store.tables.challenges {
        CreateSucceeds(s.store.tables, st.create);
      }
    } else if st.DecideStep? {
      DecideOutcomeSucceeds(s.store, st.decide);
    } else {
      OthersWriteNoChallenge(s, st);
    }
  }

  lemma CommitMovesChallenges(s: Store, r: Record)
    requires ChallengeSucceeds(s.tables.challenges, r)
    ensures ChallengesMove(s.tables.challenges, Commit(s, r).tables.challenges)
    ensures !r.PutChallenge? ==> Commit(s, r).tables.challenges == s.tables.challenges
  {
  }

  lemma {:induction false} PrefixMovesChallenges(s: Store, rs: seq<Record>)
    requires ChallengeComesLast(s.tables.challenges, rs)
    ensures ChallengesMove(s.tables.challenges, CommitAll(s, rs).tables.challenges)
    ensures rs != [] && !rs[|rs| - 1].PutChallenge? ==> CommitAll(s, rs).tables.challenges == s.tables.challenges
  {
    if rs != [] {
      var n := |rs| - 1;
      PrefixMovesChallenges(s, rs[..n]);
      assert CommitAll(s, rs[..n]).tables.challenges == s.tables.challenges;
      assert rs[n] in rs;
      CommitMovesChallenges(CommitAll(s, rs[..n]), rs[n]);
    }
  }

  lemma RebuildKeepsChallenges(s: Store)
    requires StoreInv(s)
    ensures Rebuild(s).log == s.log && Rebuild(s).tables.challenges == s.tables.challenges
  {
    hide StoreInvariant.Parts, EventStore.Rebuild;
    RebuildKeepsFamilies(s);
  }

  lemma ComesLastInPrefix(t: map<Id, ChallengeRow>, rs: seq<Record>, k: nat)
    requires ChallengeComesLast(t, rs) && k <= |rs|
    ensures ChallengeComesLast(t, rs[..k])
  {
  }

  lemma StepMovesChallenges(s: System, st: Step)
    requires SystemInv(s)
    ensures ChallengesMove(s.store.tables.challenges, Next(s, st).store.tables.challenges)
  {
    hide ControlPlane.Attempt, ControlPlane.Remember, StoreInvariant.StoreInv, SystemInvariant.VolatileInv,
         EventStore.Rebuild, ChallengeComesLast;
    if st.RebuildStep? {
      RebuildKeepsChallenges(s.store);
    } else {
      AttemptedChallengeSucceeds(s, st);
      ComesLastInPrefix(s.store.tables.challenges, Attempt(s, st), |StepRecords(s, st)|);
      assert Attempt(s, st)[..|StepRecords(s, st)|] == StepRecords(s, st);
      PrefixMovesChallenges(s.store, StepRecords(s, st));
    }
  }

  lemma {:induction false} NoChallengeWritten(s: Store, rs: seq<Record>)
    requires forall r | r in rs :: !r.PutChallenge?
    ensures CommitAll(s, rs).tables.challenges == s.tables.challenges
  {
    hide EventStore.Commit;
    if rs != [] {
      NoChallengeWritten(s, rs[..|rs| - 1]);
      assert rs[|rs| - 1] in rs;
      CommitMovesChallenges(CommitAll(s, rs[..|rs| - 1]), rs[|rs| - 1]);
    }
  }

  lemma StepKeepsChallenges(s: System, st: Step)
    requires SystemInv(s) && !st.CreateStep? && !st.DecideStep?
    ensures Next(s, st).store.tables.challenges == s.store.tables.challenges
  {
    hide ControlPlane.Attempt, ControlPlane.Remember, StoreInvariant.StoreInv, SystemInvariant.VolatileInv,
         EventStore.Rebuild;
    if st.RebuildStep? {
      RebuildKeepsChallenges(s.store);
    } else {
      OthersWriteNoChallenge(s, st);
      NoChallengeWritten(s.store, StepRecords(s, st));
    }
  }

  lemma {:induction false} RunMovesChallenges(steps: seq<Step>, k: nat)
    requires k <= |steps|
    ensures ChallengesMove(Run(steps[..k]).store.tables.challenges, Run(steps).store.tables.challenges)
    decreases |steps|
  {
    if k == |steps| {
      assert steps[..k] == steps;
    } else {
      var n := |steps| - 1;
      RunMovesChallenges(steps[..n], k);
      assert steps[..n][..k] == steps[..k];
      RunInv(steps[..n]);
      StepMovesChallenges(Run(steps[..n]), steps[n]);
    }
  }

  lemma UsedTokenIsRefused(t: Tables, log: seq<Event>, replayed: map<Id, OrderData>, id: Id, call: DecideCall)
    requires Parts(t, log, replayed)
    requires id in t.challenges && t.challenges[id].data.state != Pending && t.challenges[id].tokenHash == call.tokenHash
    ensures DecideOutcome(t, call) == ([], Failure(AlreadyUsed))
  {
    hide StoreInvariant.OrdersInv, StoreInvariant.ApprovalsInv, StoreInvariant.DecisionsInv,
         StoreInvariant.ChallengedInv, StoreInvariant.CompletionsInv;
    var found := FindByHash(t.challenges, call.tokenHash);
    var i :| i in t.challenges && t.challenges[i].tokenHash == call.tokenHash && t.challenges[i].data == found.value;
    assert i == id;
  }

  /** A token is single use: once its challenge is decided or expired, every later attempt with it,
      by anyone, at any time, is answered `AlreadyUsed` and writes nothing. */
  lemma TokenIsSingleUse(steps: seq<Step>, k: nat, id: Id, call: DecideCall)
    requires k <= |steps|
    requires var rows := Run(steps[..k]).store.tables.challenges;
             id in rows && rows[id].data.state != Pending && rows[id].tokenHash == call.tokenHash
    ensures DecideOutcome(Run(steps).store.tables, call) == ([], Failure(AlreadyUsed))
  {
    RunMovesChallenges(steps, k);
    RunInv(steps);
    var s := Run(steps).store;
    UsedTokenIsRefused(s.tables, s.log, Replay(s.log).orders, id, call);
  }

  // ----- Work orders that wait for a human -----

  /** Some approval or challenge row is about the work order. */
  ghost predicate Guarded(t: Tables, id: Id) {
    || (exists k | k in t.approvals :: k.order == id)
    || (exists i | i in t.challenges :: t.challenges[i].data.order == id)
  }

  lemma ApprovedRow(t: Tables, replayed: map<Id, OrderData>, k: Key)
    requires OrdersInv(t.orders, replayed) && ApprovalsInv(t.approvals, replayed) && k in t.approvals
    ensures k.order in t.orders && t.orders[k.order].status !in {Status.Submitted, Status.Leased}
  {
  }

  lemma ChallengedRow(t: Tables, i: Id)
    requires ChallengesInv(t.challenges, t.approvals) && i in t.challenges
    ensures var c := t.challenges[i].data; Key(c.order, c.approver) in t.approvals
  {
    assert Backed(t.challenges[i].data, t.approvals);
  }

  lemma GuardedRow(t: Tables, log: seq<Event>, replayed: map<Id, OrderData>, id: Id)
    requires Parts(t, log, replayed) && Guarded(t, id)
    ensures id in t.orders && t.orders[id].status !in {Status.Submitted, Status.Leased}
  {
    hide StoreInvariant.OrdersInv, StoreInvariant.ApprovalsInv, StoreInvariant.ChallengesInv,
         StoreInvariant.DecisionsInv, StoreInvariant.ChallengedInv, StoreInvariant.CompletionsInv;
    if k :| k in t.approvals && k.order == id {
      ApprovedRow(t, replayed, k);
    } else {
      var i :| i in t.challenges && t.challenges[i].data.order == id;
      ChallengedRow(t, i);
      ApprovedRow(t, replayed, Key(id, t.challenges[i].data.approver));
    }
  }

  /** A guarded work order is neither Submitted nor Leased: no claim on it commits anything. */
  lemma GuardedOrdersAreNotClaimable(steps: seq<Step>, id: Id, holder: string, ttl: Time, now: Time)
    requires Guarded(Run(steps).store.tables, id)
    ensures var t := Run(steps).store.tables;
            && id in t.orders && t.orders[id].status !in {Status.Submitted, Status.Leased}
            && ClaimRecords(t, id, holder, ttl, now) == []
  {
    hide ControlPlane.Next, ControlPlane.Run, StoreInvariant.Parts, Guarded;
    RunInv(steps);
    var s := Run(steps).store;
    GuardedRow(s.tables, s.log, Replay(s.log).orders, id);
  }

  /** Once a challenge was created for a work order, no later claim of it wins. */
  lemma NoClaimAfterChallenge(steps: seq<Step>, k: nat, i: Id, st: Step)
    requires k <= |steps|
    requires i in Run(steps[..k]).store.tables.challenges
    requires st.ClaimStep? && st.pick.id == Run(steps[..k]).store.tables.challenges[i].data.order
    ensures !Claims(Run(steps), st)
  {
    RunMovesChallenges(steps, k);
    var s := Run(steps);
    assert s.store.tables.challenges[i].data.order == st.pick.id;
    GuardedOrdersAreNotClaimable(steps, st.pick.id, st.holder, st.ttl, st.now);
    if Claims(s, st) {
      ClaimCommitsAll(s, st);
    }
  }

  // ----- The executor -----

  function StartedFor(s: System, id: Id): set<nat> {
    set n | n in s.starts && n < |s.won| && s.won[n] == id
  }

  function Positions(won: seq<Id>, id: Id): set<nat> {
    set n | 0 <= n < |won| && won[n] == id
  }

  lemma {:induction false} WinsAsPositions(won: seq<Id>, id: Id)
    ensures |Positions(won, id)| == Wins(won, id)
  {
    if won == [] {
      assert Positions(won, id) == {};
    } else {
      var last := |won| - 1;
      WinsAsPositions(won[..last], id);
      assert Positions(won, id) == Positions(won[..last], id) + if won[last] == id then {last} else {};
    }
  }

  lemma SubsetIsSmaller(a: set<nat>, b: set<nat>)
    requires a <= b
    ensures |a| <= |b|
  {
    assert b == a + (b - a);
  }

  /** The executor runs a work order at most once, plus once for each rebuild: across concurrent
      sweeps, stale listings and crashes. */
  lemma ExecutedAtMostOncePerRebuild(steps: seq<Step>, id: Id)
    ensures |StartedFor(Run(steps), id)| <= 1 + Run(steps).rebuilds
  {
    RunInv(steps);
    var s := Run(steps);
    assert WinsInv(s.store.tables.orders, s.won, s.rebuilds);
    WinsAsPositions(s.won, id);
    SubsetIsSmaller(StartedFor(s, id), Positions(s.won, id));
  }

  predicate Rebuilds(steps: seq<Step>) {
    exists i :: 0 <= i < |steps| && steps[i].RebuildStep?
  }

  lemma {:induction false} RebuildsAreCounted(steps: seq<Step>)
    ensures Run(steps).rebuilds == 0 <==> !Rebuilds(steps)
  {
    if steps != [] {
      var n := |steps| - 1;
      RebuildsAreCounted(steps[..n]);
      assert steps == steps[..n] + [steps[n]];
      RebuildCount(Run(steps[..n]), steps[n]);
    }
  }

  lemma RebuildCount(s: System, st: Step)
    ensures Next(s, st).rebuilds == s.rebuilds + if st.RebuildStep? then 1 else 0
  {
  }

  /** In a run without rebuild, no two executor starts are for the same work order. */
  lemma ExecutedAtMostOnce(steps: seq<Step>, i: nat, j: nat)
    requires !Rebuilds(steps) && i < j < |Run(steps).starts|
    ensures var s := Run(steps);
            s.starts[i] < |s.won| && s.starts[j] < |s.won| && s.won[s.starts[i]] != s.won[s.starts[j]]
  {
    hide ControlPlane.Next, StoreInvariant.StoreInv;
    RunInv(steps);
    RebuildsAreCounted(steps);
    var s := Run(steps);
    var a, b := s.starts[i], s.starts[j];
    if s.won[a] == s.won[b] {
      ExecutedAtMostOncePerRebuild(steps, s.won[a]);
      SubsetIsSmaller({a, b}, StartedFor(s, s.won[a]));
    }
  }

  /** Whatever was started is tagged as a microtask, only produces evidence and is not live, although
      this was read before the claim. */
  lemma StartedWorkPassesGate(steps: seq<Step>, n: nat)
    requires n in Run(steps).starts
    ensures var s := Run(steps);
            && n < |s.won| && s.won[n] in s.store.tables.orders
            && var payload := s.store.tables.orders[s.won[n]].task.payload;
               && HasIn(payload, "metadata", "microtask", Json.Bool(true))
               && Has(payload, "evidence_oriented", Json.Bool(true))
               && !Has(payload, "live", Json.Bool(true))
  {
    hide ControlPlane.Run, GateOpen;
    RunInv(steps);
    var s := Run(steps);
    assert WinsInv(s.store.tables.orders, s.won, s.rebuilds);
    GateIsForEvidenceOnly(s.store.tables.orders[s.won[n]].task);
  }

  /** The lease a sweep hands to the executor validates for the work order and the holder it is
      handed over with, in every run, until it expires, and then fails for that reason alone. */
  lemma LeasesOnlyExpire(steps: seq<Step>, n: nat, now: Time)
    requires n in Run(steps).tickets
    ensures var t := Run(steps).tickets[n];
            ValidateFor(t.lease, t.order.id, t.holder, now) ==
            if now <= t.lease.expiresAt then Success(()) else Failure(LeaseExpired)
  {
    hide ControlPlane.Next;
    RunInv(steps);
    var s := Run(steps);
    assert TicketsInv(s.store.tables.orders, s.tickets, s.won);
  }

  /** A completed microtask carries evidence. */
  lemma CompletionsCarryEvidence(steps: seq<Step>, i: nat)
    requires i < |Run(steps).store.log|
    requires var e := Run(steps).store.log[i]; e.OrderLogged? && e.name.MicrotaskCompleted?
    ensures Run(steps).store.log[i].order.evidence != []
  {
    RunInv(steps);
    var s := Run(steps).store;
    assert CompletionsInv(s.log);
  }

  /** What a write-back makes of a claim-time snapshot: completed with all the produced evidence after
      what it had, in order, or failed with one more warning that says why. */
  lemma WriteBackMeans(steps: seq<Step>, n: nat, ran: Ran, now: Time)
    requires n in Run(steps).tickets && Run(steps).tickets[n].started
    ensures var s := Run(steps); var o := s.tickets[n].order;
            var s' := Next(s, FinishStep(n, ran, now, 1));
            && o.id in s'.store.tables.orders
            && s'.store.tables.orders[o.id] ==
               if ran.Produced? && ran.evidence != []
               then o.(status := Status.Completed, updatedAt := now, evidence := o.evidence + ran.evidence)
               else o.(status := Status.Failed, updatedAt := now,
                       attention := o.attention +
                         [Attention(Warn, if ran.Errored? then ran.reason else "no_evidence_produced")])
  {
    hide ControlPlane.Run;
    RunInv(steps);
    var s := Run(steps);
    TicketIsForTheWonOrder(s, n);
    FinishCommits(s, n, ran, now);
  }

  lemma FinishCommits(s: System, n: nat, ran: Ran, now: Time)
    requires n in s.tickets && s.tickets[n].started && s.tickets[n].order.status == Status.Leased
    ensures var rs := FinishRecords(s.tickets[n].order, ran, now);
            |rs| == 1 && Next(s, FinishStep(n, ran, now, 1)).store == Commit(s.store, rs[0])
  {
    hide EventStore.Commit, EventStore.CommitAll;
    var st, rs := FinishStep(n, ran, now, 1), FinishRecords(s.tickets[n].order, ran, now);
    assert StepRecords(s, st) == [rs[0]];
    CommitAllOne(s.store, rs[0]);
  }

  // ----- Leases -----

  ghost predicate HasLease(t: Tables, id: Id) {
    exists k | k in t.leases :: k.order == id
  }

  /** Every leased work order has its lease on record. */
  ghost predicate LeasesInv(t: Tables) {
    forall id | id in t.orders && t.orders[id].status == Status.Leased :: HasLease(t, id)
  }

  lemma {:induction false} LeasesStay(s: Store, rs: seq<Record>)
    ensures forall k | k in s.tables.leases :: k in CommitAll(s, rs).tables.leases
    ensures forall i | 0 <= i < |rs| && rs[i].PutLease? ::
              Key(rs[i].lease.order, rs[i].lease.holder) in CommitAll(s, rs).tables.leases
  {
    if rs != [] {
      var n := |rs| - 1;
      LeasesStay(s, rs[..n]);
      LeaseIsPut(CommitAll(s, rs[..n]), rs[n]);
    }
  }

  lemma LeaseIsPut(s: Store, r: Record)
    ensures forall k | k in s.tables.leases :: k in Commit(s, r).tables.leases
    ensures r.PutLease? ==> Key(r.lease.order, r.lease.holder) in Commit(s, r).tables.leases
  {
  }

  /** A claim records the lease before the work order. */
  lemma LeasedIsClaimed(s: System, st: Step, r: Record)
    requires r in Attempt(s, st) && r.PutOrder? && r.name.MicrotaskLeased?
    requires forall id | id in s.store.tables.orders :: s.store.tables.orders[id].id == id
    ensures var rs := Attempt(s, st);
            |rs| == 2 && rs[0].PutLease? && rs[0].lease.order == r.order.id && !rs[0].PutOrder?
  {
  }

  lemma OnlyClaimsLease(t: Tables, name: OrderEvent, o: OrderData)
    requires OrderAllowed(t, name, o) && o.status == Status.Leased
    ensures name.MicrotaskLeased?
  {
  }

  lemma StepKeepsLeases(s: System, st: Step)
    requires SystemInv(s) && LeasesInv(s.store.tables) && !st.RebuildStep?
    ensures LeasesInv(Next(s, st).store.tables)
  {
    hide ControlPlane.Attempt, SystemInvariant.SystemInv, SystemInvariant.Written, ControlPlane.Remember, EventStore.CommitAll;
    var rs := StepRecords(s, st);
    var t, t' := s.store.tables, Next(s, st).store.tables;
    StepWrites(s, st);
    LeasesStay(s.store, rs);
    var w := Written(rs);
    forall id | id in t'.orders && t'.orders[id].status == Status.Leased
      ensures HasLease(t', id)
    {
      if w.Some? && w.value.PutOrder? && w.value.order.id == id {
        OnlyClaimsLease(t, w.value.name, w.value.order);
        WrittenIsARecord(rs);
        RowsCarryTheirIds(s);
        LeasedIsClaimed(s, st, w.value);
        assert rs[0] == Attempt(s, st)[0];
        assert Key(rs[0].lease.order, rs[0].lease.holder) in t'.leases;
      } else {
        assert HasLease(t, id);
      }
    }
  }

  lemma RowsCarryTheirIds(s: System)
    requires SystemInv(s)
    ensures forall id | id in s.store.tables.orders :: s.store.tables.orders[id].id == id
  {
  }

  lemma RebuiltIsNotLeased(s: Store)
    requires StoreInv(s)
    ensures forall id | id in Rebuild(s).tables.orders :: Rebuild(s).tables.orders[id].status != Status.Leased
  {
    RebuildKeepsInv(s);
  }

  /** In every run, at every crash point, a work order that is Leased has a lease on record: the lease
      is granted before the work order is stored as leased, and neither rebuilds nor crashes part them. */
  lemma {:induction false} LeasedOrdersHaveTheirLease(steps: seq<Step>)
    ensures LeasesInv(Run(steps).store.tables)
  {
    if steps != [] {
      hide ControlPlane.Next, SystemInvariant.SystemInv, StoreInvariant.StoreInv, LeasesInv, EventStore.Rebuild;
      var n := |steps| - 1;
      LeasedOrdersHaveTheirLease(steps[..n]);
      RunInv(steps[..n]);
      var s := Run(steps[..n]);
      if steps[n].RebuildStep? {
        RebuiltHasLeases(s);
      } else {
        StepKeepsLeases(s, steps[n]);
      }
    }
  }

  lemma RebuiltHasLeases(s: System)
    requires SystemInv(s)
    ensures LeasesInv(Next(s, RebuildStep).store.tables)
  {
    hide StoreInvariant.StoreInv, SystemInvariant.VolatileInv, EventStore.Rebuild;
    RebuiltIsNotLeased(s.store);
  }

  // ----- Rebuilding -----

  lemma {:induction false} CommitsKeepCurrent(s: Store, rs: seq<Record>)
    requires Current(s.tables, Replay(s.log))
    ensures var s' := CommitAll(s, rs); Current(s'.tables, Replay(s'.log))
  {
    hide Refinement.Current, EventStore.Commit;
    if rs != [] {
      CommitsKeepCurrent(s, rs[..|rs| - 1]);
      CommitKeepsCurrent(CommitAll(s, rs[..|rs| - 1]), rs[|rs| - 1]);
    }
  }

  lemma StepKeepsCurrent(s: System, st: Step)
    requires StoreInv(s.store) && Current(s.store.tables, Replay(s.store.log))
    ensures var s' := Next(s, st).store; Current(s'.tables, Replay(s'.log))
  {
    hide Refinement.Current, ControlPlane.StepRecords, ControlPlane.Remember, StoreInvariant.Parts, EventStore.Rebuild;
    if st.RebuildStep? {
      RebuildKeepsFamilies(s.store);
      RebuildKeepsCurrent(s.store);
    } else {
      CommitsKeepCurrent(s.store, StepRecords(s, st));
    }
  }

  lemma {:induction false} RunIsCurrent(steps: seq<Step>)
    ensures var s := Run(steps).store; Current(s.tables, Replay(s.log))
  {
    if steps != [] {
      hide ControlPlane.Next, Refinement.Current, StoreInvariant.StoreInv;
      var n := |steps| - 1;
      RunIsCurrent(steps[..n]);
      RunInv(steps[..n]);
      StepKeepsCurrent(Run(steps[..n]), steps[n]);
    }
  }

  /** In every run, whatever was rebuilt before, a rebuild succeeds, keeps the log, and changes no
      lease, approval, challenge, health or effect row; it keeps the evidence but for nil ids and the
      control-plane rows exactly when every id shows the highest kind it was used under. */
  lemma RebuildIsHarmlessInEveryRun(steps: seq<Step>)
    ensures var s := Run(steps).store; var s' := Rebuild(s);
            && Rebuilt(Replay(s.log)).Some?
            && s'.log == s.log
            && s'.tables.leases == s.tables.leases && s'.tables.approvals == s.tables.approvals
            && s'.tables.challenges == s.tables.challenges
            && s'.tables.health == s.tables.health && s'.tables.effects == s.tables.effects
            && s'.tables.orders.Keys == s.tables.orders.Keys
            && s'.tables.evidence == Normalised(s.tables.evidence)
            && s'.tables.controls.Keys == s.tables.controls.Keys
            && (s'.tables.controls == s.tables.controls <==>
                  HighestKindsShow(s.tables.controls, Replay(s.log).controls))
            && Rebuild(s') == s'
  {
    hide ControlPlane.Run, ControlPlane.Next, Refinement.Current, StoreInvariant.Parts;
    RunInv(steps);
    RunIsCurrent(steps);
    RebuildKeepsFamilies(Run(steps).store);
    RebuildKeepsCurrent(Run(steps).store);
    RebuildTasks(Run(steps).store);
  }

  /** A rebuild puts a work order back to Submitted exactly when it was never up for approval,
      whatever the dispatcher had done with it since. */
  lemma RebuildResubmitsExactly(steps: seq<Step>, id: Id)
    requires id in Run(steps).store.tables.orders
    ensures var s := Run(steps).store;
            && id in Rebuild(s).tables.orders
            && (Rebuild(s).tables.orders[id].status == Status.Submitted <==> !Challenged(s.log, id))
  {
    RunInv(steps);
    var s := Run(steps).store;
    RebuildKeepsInv(s);
    assert Parts(s.tables, s.log, Replay(s.log).orders);
  }
}
