/** The application object: every call locks the store, reads documents, changes them in memory and
    writes them back one transaction at a time.

    `history` is the run of the step system that the store has gone through: each call adds its
    step, so everything proved about all runs holds of the store after any sequence of calls. */
module Application {
  import opened Wrappers
  import opened Domain
  import opened EventStore
  import opened Persistence
  import opened Microtasks
  import opened ControlPlane
  import opened StoreInvariant
  import opened SystemInvariant
  import opened Approvals
  import Json
  import Safety

  datatype AppError =
    | Storage(error: StoreError)
    | Refused(domain: DomainError)
    | NotFound
    | NotAcceptable
    | AlreadyDecided
    | Undecided(decideError: DecideError)
    | Override(rejection: Rejection)

  datatype Report = Report(completed: nat, failed: nat, skipped: nat)

  /** What became of one listed work order. */
  datatype Fate = Skip | Ran(serial: nat, ran: ControlPlane.Ran)

  function Tally(fates: seq<Fate>): Report {
    if fates == [] then Report(0, 0, 0)
    else
      var t := Tally(fates[..|fates| - 1]);
      match fates[|fates| - 1]
      case Skip => t.(skipped := t.skipped + 1)
      case Ran(_, Produced(evidence)) =>
        if evidence == [] then t.(failed := t.failed + 1) else t.(completed := t.completed + 1)
      case Ran(_, Errored(_)) => t.(failed := t.failed + 1)
  }

  lemma {:induction false} TallyCountsEachOnce(fates: seq<Fate>)
    ensures var t := Tally(fates); t.completed + t.failed + t.skipped == |fates|
  {
    if fates != [] {
      TallyCountsEachOnce(fates[..|fates| - 1]);
    }
  }

  predicate Skipped(f: Fate) {
    f.Skip?
  }

  predicate BroughtEvidence(f: Fate) {
    f.Ran? && f.ran.Produced? && f.ran.evidence != []
  }

  predicate BroughtNothing(f: Fate) {
    f.Ran? && (f.ran.Errored? || f.ran.evidence == [])
  }

  function Where(fates: seq<Fate>, p: Fate -> bool): set<nat> {
    set i | 0 <= i < |fates| && p(fates[i])
  }

  lemma WhereSnoc(fates: seq<Fate>, p: Fate -> bool)
    requires fates != []
    ensures |Where(fates, p)| == |Where(fates[..|fates| - 1], p)| + if p(fates[|fates| - 1]) then 1 else 0
  {
    var n := |fates| - 1;
    var front := Where(fates[..n], p);
    assert Where(fates, p) == front + if p(fates[n]) then {n} else {};
  }

  /** What each counter counts: listed work orders no adapter owns, executions that brought evidence,
      and executions that brought none or an error. */
  lemma {:induction false} TallyCounts(fates: seq<Fate>)
    ensures var t := Tally(fates);
            && t.skipped == |Where(fates, Skipped)|
            && t.completed == |Where(fates, BroughtEvidence)|
            && t.failed == |Where(fates, BroughtNothing)|
  {
    if fates == [] {
      assert Where(fates, Skipped) == {} && Where(fates, BroughtEvidence) == {} && Where(fates, BroughtNothing) == {};
    } else {
      hide Where;
      TallyCounts(fates[..|fates| - 1]);
      WhereSnoc(fates, Skipped);
      WhereSnoc(fates, BroughtEvidence);
      WhereSnoc(fates, BroughtNothing);
    }
  }

  lemma TallySnoc(fates: seq<Fate>, fate: Fate)
    ensures Tally(fates + [fate]) ==
            var t := Tally(fates);
            match fate
            case Skip => t.(skipped := t.skipped + 1)
            case Ran(_, Produced(evidence)) =>
              if evidence == [] then t.(failed := t.failed + 1) else t.(completed := t.completed + 1)
            case Ran(_, Errored(_)) => t.(failed := t.failed + 1)
  {
    assert (fates + [fate])[..|fates|] == fates;
  }

  // ----- From calls to steps -----

  lemma NoneCommitted(s: Store, rs: seq<Record>)
    ensures CommitAll(s, rs[..0]) == s
  {
  }

  lemma OneMoreCommitted(s: Store, rs: seq<Record>, k: nat)
    requires k < |rs|
    ensures CommitAll(s, rs[..k + 1]) == Commit(CommitAll(s, rs[..k]), rs[k])
  {
    assert rs[..k + 1][..k] == rs[..k];
  }

  lemma {:induction false} CommittedInTwoParts(s: Store, rs: seq<Record>, i: nat, k: nat)
    requires i + k <= |rs|
    ensures CommitAll(s, rs[..i + k]) == CommitAll(CommitAll(s, rs[..i]), rs[i..][..k])
  {
    hide Commit;
    if k > 0 {
      CommittedInTwoParts(s, rs, i, k - 1);
      OneMoreCommitted(s, rs, i + k - 1);
      OneMoreCommitted(CommitAll(s, rs[..i]), rs[i..], k - 1);
    }
  }

  lemma RunSnoc(history: seq<Step>, st: Step)
    ensures Run(history + [st]) == Next(Run(history), st)
  {
    hide Next;
    assert (history + [st])[..|history|] == history;
  }

  predicate Transactional(st: Step) {
    st.SubmitStep? || st.CreateStep? || st.DecideStep? || st.ClaimStep? || st.FinishStep? || st.EnqueueStep? || st.OtherStep?
  }

  /** A call that committed the first `commits` of its records is the step that says so. */
  lemma CallIsStep(history: seq<Step>, st: Step, rs: seq<Record>)
    requires Transactional(st) && Attempt(Run(history), st) == rs && st.commits <= |rs|
    ensures Run(history + [st]).store == CommitAll(Run(history).store, rs[..st.commits])
    ensures Run(history + [st]) == Remember(Run(history), st).(store := Run(history + [st]).store)
  {
    hide Attempt, Remember, Rebuild, CommitAll;
    RunSnoc(history, st);
  }

  /** Steps that no sweep and no generator tick takes. */
  predicate Elsewhere(st: Step) {
    st.SubmitStep? || st.CreateStep? || st.DecideStep? || st.OtherStep? || st.RebuildStep?
  }

  /** What calls elsewhere leave alone: what sweeps have listed and claimed, and what a generator is
      about to submit. */
  ghost predicate SameSweeps(s: System, s': System) {
    s'.listed == s.listed && s'.tickets == s.tickets && s'.won == s.won && s'.starts == s.starts && s'.pending == s.pending
  }

  lemma ElsewhereKeepsSweeps(history: seq<Step>, st: Step)
    requires Elsewhere(st)
    ensures SameSweeps(Run(history), Run(history + [st]))
  {
    hide Attempt;
    RunSnoc(history, st);
  }

  // ----- What the steps of sweeps and generator ticks do -----

  /** The work orders a sweep would list. */
  function Dispatchable(orders: map<Id, OrderData>): set<OrderData> {
    set id | id in orders && IsAutoDispatchable(orders[id]) :: orders[id]
  }

  lemma ListIsStep(history: seq<Step>)
    ensures var s := Run(history); Run(history + [ListStep]) == s.(listed := s.listed + Dispatchable(s.store.tables.orders))
  {
    RunSnoc(history, ListStep);
  }

  lemma ClaimIsStep(history: seq<Step>, st: Step)
    requires st.ClaimStep? && st.pick in Run(history).listed
    requires var rs := ClaimRecords(Run(history).store.tables, st.pick.id, st.holder, st.ttl, st.now); st.commits <= |rs|
    ensures var s := Run(history);
            var rs := ClaimRecords(s.store.tables, st.pick.id, st.holder, st.ttl, st.now);
            && |rs| <= 2
            && Run(history + [st]) ==
               if st.commits < 2 then s.(store := CommitAll(s.store, rs[..st.commits]))
               else s.(store := CommitAll(s.store, rs), won := s.won + [st.pick.id],
                       tickets := s.tickets[|s.won| := Ticket(rs[1].order, rs[0].lease, st.holder, false)])
  {
    hide CommitAll, Domain.LeaseOrder;
    var rs := ClaimRecords(Run(history).store.tables, st.pick.id, st.holder, st.ttl, st.now);
    CallIsStep(history, st, rs);
    assert rs[..|rs|] == rs;
  }

  lemma StartIsStep(history: seq<Step>, n: nat)
    requires n in Run(history).tickets && !Run(history).tickets[n].started
    ensures var s := Run(history);
            Run(history + [StartStep(n)]) ==
            s.(tickets := s.tickets[n := s.tickets[n].(started := true)], starts := s.starts + [n])
  {
    RunSnoc(history, StartStep(n));
  }

  lemma FinishIsStep(history: seq<Step>, st: Step)
    requires st.FinishStep? && st.serial in Run(history).tickets && Run(history).tickets[st.serial].started
    requires st.commits <= |FinishRecords(Run(history).tickets[st.serial].order, st.ran, st.now)|
    ensures var s := Run(history);
            var rs := FinishRecords(s.tickets[st.serial].order, st.ran, st.now);
            Run(history + [st]) == s.(store := CommitAll(s.store, rs[..st.commits]), tickets := s.tickets - {st.serial})
  {
    hide CommitAll, FinishRecords;
    CallIsStep(history, st, FinishRecords(Run(history).tickets[st.serial].order, st.ran, st.now));
  }

  lemma CheckIsStep(history: seq<Step>, g: Generation)
    ensures var s := Run(history);
            Run(history + [CheckStep(g)]) ==
            s.(pending := if HasOpenMicrotask(s.store.tables.orders, g.definition.id, g.overrides.repo) then None else Some(g))
  {
    RunSnoc(history, CheckStep(g));
  }

  /** What a caller may rely on after others had the lock: listings and wins are only added to, its
      own ticket and its own pending generation are untouched. */
  ghost predicate Spares(s: System, s': System, mine: nat) {
    && s.listed <= s'.listed && s.won <= s'.won && s'.pending == s.pending
    && (mine in s.tickets ==> mine in s'.tickets && s'.tickets[mine] == s.tickets[mine])
  }

  /** What a sweep did about a listed work order, as the history shows it. */
  ghost predicate Executed(history: seq<Step>, id: Id, serial: nat, ran: ControlPlane.Ran) {
    && serial < |Run(history).won| && Run(history).won[serial] == id
    && StartStep(serial) in history
    && exists now :: FinishStep(serial, ran, now, 1) in history
  }

  ghost predicate Met(history: seq<Step>, o: OrderData, fate: Fate, holderFor: string -> Option<string>) {
    match fate
    case Skip => holderFor(o.task.kind).None?
    case Ran(serial, ran) => holderFor(o.task.kind).Some? && Executed(history, o.id, serial, ran)
  }

  lemma MetStays(before: seq<Step>, after: seq<Step>, listed: seq<OrderData>, fates: seq<Fate>, holderFor: string -> Option<string>)
    requires before <= after && Run(before).won <= Run(after).won && |fates| <= |listed|
    requires forall i | 0 <= i < |fates| :: Met(before, listed[i], fates[i], holderFor)
    ensures forall i | 0 <= i < |fates| :: Met(after, listed[i], fates[i], holderFor)
  {
    hide Run;
    assert forall st | st in before :: st in after;
  }

  function Filtered(all: seq<OrderData>): seq<OrderData> {
    if all == [] then []
    else Filtered(all[..|all| - 1]) + if IsAutoDispatchable(all[|all| - 1]) then [all[|all| - 1]] else []
  }

  lemma {:induction false} FilteredKeeps(all: seq<OrderData>, o: OrderData)
    ensures o in Filtered(all) <==> o in all && IsAutoDispatchable(o)
  {
    hide IsAutoDispatchable;
    if all != [] {
      FilteredKeeps(all[..|all| - 1], o);
      assert all == all[..|all| - 1] + [all[|all| - 1]];
    }
  }

  lemma ListingShowsRows(all: seq<OrderData>, orders: map<Id, OrderData>, o: OrderData)
    requires Listing(all, orders)
    ensures o in all <==> exists id | id in orders :: orders[id] == o
  {
    var ids :| ListsIds(all, ids, orders, orders.Keys);
    if o in all {
      var i :| 0 <= i < |all| && all[i] == o;
      assert orders[ids[i]] == o;
    }
    if id :| id in orders && orders[id] == o {
      assert id in multiset(ids);
      var i :| 0 <= i < |ids| && ids[i] == id;
      assert all[i] == o;
    }
  }

  lemma ListedAreDispatchable(listed: seq<OrderData>, orders: map<Id, OrderData>)
    requires exists all :: Listing(all, orders) && listed == Filtered(all)
    ensures forall o :: o in listed <==> o in Dispatchable(orders)
  {
    hide Listing, IsAutoDispatchable, Filtered;
    var all :| Listing(all, orders) && listed == Filtered(all);
    forall o
      ensures o in listed <==> o in Dispatchable(orders)
    {
      FilteredKeeps(all, o);
      ListingShowsRows(all, orders, o);
    }
  }

  /** The listing, both ways: the Submitted rows tagged as microtasks that only produce evidence and
      are not live. */
  ghost predicate ListsEvidenceOnly(listed: seq<OrderData>, orders: map<Id, OrderData>) {
    forall o :: o in listed <==>
      && (exists id | id in orders :: orders[id] == o)
      && o.status == Status.Submitted
      && HasIn(o.task.payload, "metadata", "microtask", Json.Bool(true))
      && Has(o.task.payload, "evidence_oriented", Json.Bool(true))
      && !Has(o.task.payload, "live", Json.Bool(true))
  }

  lemma ListedExactly(listed: seq<OrderData>, orders: map<Id, OrderData>)
    requires exists all :: Listing(all, orders) && listed == Filtered(all)
    ensures ListsEvidenceOnly(listed, orders)
  {
    hide Listing, IsAutoDispatchable, Filtered, Has, HasIn;
    ListedAreDispatchable(listed, orders);
    forall o
      ensures o in listed <==> (exists id | id in orders :: orders[id] == o) && IsAutoDispatchable(o)
    {
    }
    forall o {
      DispatchedExactly(o);
    }
  }

  class AppState {
    const store: SqliteStore
    ghost var history: seq<Step>

    constructor ()
      ensures Valid() && fresh(store) && store.State() == EMPTY_STORE && history == []
    {
      store := new SqliteStore();
      history := [];
    }

    ghost predicate Valid() reads this, store {
      store.Valid() && Run(history).store == store.State()
    }

    // ----- Submitting -----

    /** Stores a new work order; one transaction. */
    method Submit(id: Id, subject: string, task: Task, now: Time) returns (r: Result<OrderData, AppError>, ghost commits: nat)
      requires store.Valid()
      modifies store
      ensures store.Valid() && commits == if r.Success? then 1 else 0
      ensures r.Failure? ==> r.error.Storage?
      ensures store.State() == CommitAll(old(store.State()), SubmitRecords(id, subject, task, now)[..commits])
      ensures r.Success? ==> [PutOrder(OrderSubmitted, r.value)] == SubmitRecords(id, subject, task, now)
      ensures r.Success? ==> r.value == OrderData(id, subject, task, Status.Submitted, [], [], now, now)
    {
      hide CommitAll;
      ghost var rs := SubmitRecords(id, subject, task, now);
      NoneCommitted(store.State(), rs);
      OneMoreCommitted(store.State(), rs, 0);
      var order := new WorkOrder(Domain.Submit(id, subject, task, now));
      order.attention := order.attention + Attend(order.Data());
      var appended := store.AppendWorkOrder(OrderSubmitted, order.Data());
      if appended.Failure? {
        return Failure(Storage(appended.error)), 0;
      }
      r, commits := Success(order.Data()), 1;
    }

    /** `id` is a fresh uuid. */
    method SubmitEnvelope(id: Id, subject: string, task: Task, now: Time) returns (r: Result<OrderData, AppError>, ghost commits: nat)
      requires Valid() && id != NIL && id !in store.tables.orders
      modifies this`history, store
      ensures Valid() && history == old(history) + [SubmitStep(id, subject, task, now, commits)]
      ensures commits == if r.Success? then 1 else 0
      ensures r.Success? ==>
                && id in store.tables.orders && store.tables.orders[id] == r.value
                && r.value == OrderData(id, subject, task, Status.Submitted, [], [], now, now)
    {
      hide Run, Remember, CommitAll;
      ghost var before := store.State();
      r, commits := Submit(id, subject, task, now);
      ghost var rs := SubmitRecords(id, subject, task, now);
      NoneCommitted(before, rs);
      OneMoreCommitted(before, rs, 0);
      CallIsStep(history, SubmitStep(id, subject, task, now, commits), rs);
      history := history + [SubmitStep(id, subject, task, now, commits)];
    }

    // ----- Approvals -----

    /** Up to three transactions; `c.challenge` is a fresh uuid. */
    method CreateApprovalChallenge(c: CreateCall) returns (r: Result<ChallengeData, AppError>, ghost commits: nat)
      requires Valid() && c.challenge !in store.tables.challenges
      modifies this`history, store
      ensures Valid() && history == old(history) + [CreateStep(c, commits)]
      ensures var rs := CreateRecords(old(store.tables), c);
              && commits <= |rs|
              && store.State() == CommitAll(old(store.State()), rs[..commits])
              && (r.Success? ==> commits == |rs| && rs != [] && rs[|rs| - 1] == PutChallenge(r.value))
              && (r.Failure? && !r.error.Storage? ==> rs == [])
      ensures r.Success? ==>
                && r.value.id == c.challenge && r.value.order == c.order && r.value.approver == c.approver
                && r.value.channel == c.channel && r.value.targetUser == c.user && r.value.targetChat == c.chat
                && r.value.tokenHash == c.tokenHash && r.value.state == ChallengeState.Pending && r.value.decision == None
      ensures r.Failure? && r.error == NotFound ==> c.order !in old(store.tables).orders
      ensures r.Failure? && r.error == NotAcceptable ==>
                && c.order in old(store.tables).orders
                && old(store.tables).orders[c.order].status !in {Status.Submitted, Status.Leased, Status.AwaitingApproval}
      ensures r.Failure? ==> r.error.Storage? || r.error == NotFound || r.error == NotAcceptable || r.error == AlreadyDecided
      ensures r.Failure? ==> r.error != AlreadyDecided
    {
      hide Run, Remember, CommitAll;
      ghost var rs := CreateRecords(store.tables, c);
      ghost var before := store.State();
      NoneCommitted(before, rs);
      CreatableExactly(history, c);
      r, commits := CreateUnderLock(c);
      CallIsStep(history, CreateStep(c, commits), rs);
      history := history + [CreateStep(c, commits)];
    }

    method CreateUnderLock(c: CreateCall) returns (r: Result<ChallengeData, AppError>, ghost commits: nat)
      requires store.Valid()
      modifies store
      ensures store.Valid()
      ensures var rs := CreateRecords(old(store.tables), c);
              && commits <= |rs|
              && store.State() == CommitAll(old(store.State()), rs[..commits])
              && (r.Success? ==> commits == |rs| && rs != [] && rs[|rs| - 1] == PutChallenge(r.value))
              && (r.Failure? && !r.error.Storage? ==> rs == [])
      ensures r.Success? ==>
                && r.value.id == c.challenge && r.value.order == c.order && r.value.approver == c.approver
                && r.value.channel == c.channel && r.value.targetUser == c.user && r.value.targetChat == c.chat
                && r.value.tokenHash == c.tokenHash && r.value.state == ChallengeState.Pending && r.value.decision == None
      ensures r.Failure? && r.error == NotFound ==> c.order !in old(store.tables).orders
      ensures r.Failure? && r.error == NotAcceptable ==>
                && c.order in old(store.tables).orders
                && old(store.tables).orders[c.order].status !in {Status.Submitted, Status.Leased, Status.AwaitingApproval}
      ensures r.Failure? ==> r.error.Storage? || r.error == NotFound || r.error == NotAcceptable || r.error == AlreadyDecided
      ensures r.Failure? && r.error == AlreadyDecided ==>
                && c.order in old(store.tables).orders
                && old(store.tables).orders[c.order].status == Status.AwaitingApproval
    {
      hide CommitAll, Commit, Attend;
      ghost var before := store.State();
      ghost var rs := CreateRecords(store.tables, c);
      NoneCommitted(before, rs);
      commits := 0;
      var found := store.GetWorkOrder(c.order);
      if found.Failure? {
        return Failure(Storage(found.error)), 0;
      }
      if found.value.None? {
        return Failure(NotFound), 0;
      }
      var order := new WorkOrder(found.value.value);
      var approval: ApprovalData;
      if order.status in {Status.Submitted, Status.Leased} {
        // Not refused: the status was just read.
        var required := order.RequireApproval(c.approver, c.ttl, c.nowLocked);
        order.attention := order.attention + Attend(order.Data());
        var appended := store.AppendWorkOrder(OrderAwaitingApproval, order.Data());
        if appended.Failure? {
          return Failure(Storage(appended.error)), 0;
        }
        OneMoreCommitted(before, rs, 0);
        commits := 1;
        approval := required.value;
      } else if order.status == Status.AwaitingApproval {
        var known := store.GetApproval(c.order, c.approver);
        if known.Failure? {
          return Failure(Storage(known.error)), 0;
        }
        approval := match known.value
          case Some(a) => a
          case None => ApprovalData(c.order, c.approver, c.now + c.ttl, None);
      } else {
        return Failure(NotAcceptable), 0;
      }
      if approval.decision.Some? {
        return Failure(AlreadyDecided), 0;
      }
      var challenge := NewChallenge(c, approval.expiresAt);
      assert rs[commits..] == [PutApproval(approval), PutChallenge(challenge)];
      ghost var first := commits;
      var written, more := WriteChallenge(approval, challenge);
      CommittedInTwoParts(before, rs, first, more);
      commits := first + more;
      assert |rs| == first + 2 && rs[|rs| - 1] == rs[first..][1];
      r := match written
        case Success(_) => Success(challenge)
        case Failure(e) => Failure(e);
    }

    method WriteChallenge(a: ApprovalData, c: ChallengeData) returns (r: Result<(), AppError>, ghost commits: nat)
      requires store.Valid()
      modifies store
      ensures store.Valid()
      ensures commits <= 2 && (r.Success? ==> commits == 2) && (r.Failure? ==> r.error.Storage?)
      ensures store.State() == CommitAll(old(store.State()), [PutApproval(a), PutChallenge(c)][..commits])
    {
      hide CommitAll, Commit;
      ghost var before := store.State();
      ghost var rs := [PutApproval(a), PutChallenge(c)];
      NoneCommitted(before, rs);
      OneMoreCommitted(before, rs, 0);
      OneMoreCommitted(before, rs, 1);
      var approved := store.RecordApproval(a);
      if approved.Failure? {
        return Failure(Storage(approved.error)), 0;
      }
      var recorded := store.RecordApprovalChallenge(c);
      if recorded.Failure? {
        return Failure(Storage(recorded.error)), 1;
      }
      r, commits := Success(()), 2;
    }

    /** Up to three transactions. */
    method DecideApprovalByToken(d: DecideCall) returns (r: Result<OrderData, AppError>, ghost commits: nat)
      requires Valid()
      modifies this`history, store
      ensures Valid() && history == old(history) + [DecideStep(d, commits)]
      ensures var (rs, answer) := DecideOutcome(old(store.tables), d);
              && commits <= |rs|
              && store.State() == CommitAll(old(store.State()), rs[..commits])
              && (r.Success? ==> commits == |rs| && answer == Success(r.value))
              && (r.Failure? && !r.error.Storage? ==> commits == |rs| && r.error.Undecided? && answer == Failure(r.error.decideError))
      ensures r.Success? && d.decision == Decision.Approved ==> r.value.status == Status.Approved
      ensures r.Success? && d.decision == Decision.Rejected ==> r.value.status == Status.Failed
      ensures r.Success? ==> r.value.id in store.tables.orders && store.tables.orders[r.value.id] == r.value
    {
      hide Run, Remember, CommitAll, DecideOutcome;
      ghost var before := store.State();
      r, commits := DecideUnderLock(d);
      if r.Success? {
        SuccessMeans(history, d);
      }
      CallIsStep(history, DecideStep(d, commits), DecideOutcome(before.tables, d).0);
      history := history + [DecideStep(d, commits)];
    }

    method DecideUnderLock(d: DecideCall) returns (r: Result<OrderData, AppError>, ghost commits: nat)
      requires store.Valid()
      modifies store
      ensures store.Valid()
      ensures var (rs, answer) := DecideOutcome(old(store.tables), d);
              && commits <= |rs|
              && store.State() == CommitAll(old(store.State()), rs[..commits])
              && (r.Success? ==> commits == |rs| && answer == Success(r.value))
              && (r.Failure? && !r.error.Storage? ==> commits == |rs| && r.error.Undecided? && answer == Failure(r.error.decideError))
      ensures r.Success? ==> r.value.id in store.tables.orders && store.tables.orders[r.value.id] == r.value
    {
      hide CommitAll, Commit, DecideChallenge, SettleOrder, FindByHash;
      ghost var before := store.State();
      ghost var rs := DecideOutcome(store.tables, d).0;
      NoneCommitted(before, rs);
      commits := 0;
      var found := store.ApprovalChallengeByTokenHash(d.tokenHash);
      if found.Failure? {
        return Failure(Storage(found.error)), 0;
      }
      if found.value.None? {
        return Failure(Undecided(UnknownToken)), 0;
      }
      var challenge := new ApprovalChallenge(found.value.value);
      var decided := challenge.Decide(d.actor, d.decision, d.now);
      if decided.Failure? {
        if decided.error == ApprovalExpired {
          OneMoreCommitted(before, rs, 0);
          var recorded := store.RecordApprovalChallenge(challenge.Data());
          if recorded.Failure? {
            return Failure(Storage(recorded.error)), 0;
          }
          commits := 1;
        }
        return Failure(Undecided(ErrorOf(decided.error))), commits;
      }
      var knownApproval := store.GetApproval(challenge.order, challenge.approver);
      if knownApproval.Failure? {
        return Failure(Storage(knownApproval.error)), 0;
      }
      if knownApproval.value.None? {
        return Failure(Undecided(ApprovalMissing)), 0;
      }
      var knownOrder := store.GetWorkOrder(challenge.order);
      if knownOrder.Failure? {
        return Failure(Storage(knownOrder.error)), 0;
      }
      if knownOrder.value.None? {
        return Failure(Undecided(OrderMissing)), 0;
      }
      var approval := new Approval(knownApproval.value.value);
      var order := new WorkOrder(knownOrder.value.value);
      var applied := order.ApplyApproval(approval, challenge.approver, d.decision, d.nowApply);
      if applied.Failure? {
        return Failure(Undecided(ErrorOf(applied.error))), 0;
      }
      assert rs == [PutOrder(OrderApprovalDecided, order.Data()), PutApproval(approval.Data()), PutChallenge(challenge.Data())];
      var written;
      written, commits := WriteDecision(order.Data(), approval.Data(), challenge.Data());
      r := match written
        case Success(_) => Success(order.Data())
        case Failure(e) => Failure(e);
    }

    method WriteDecision(o: OrderData, a: ApprovalData, c: ChallengeData) returns (r: Result<(), AppError>, ghost commits: nat)
      requires store.Valid()
      modifies store
      ensures store.Valid()
      ensures commits <= 3 && (r.Success? ==> commits == 3) && (r.Failure? ==> r.error.Storage?)
      ensures var rs := [PutOrder(OrderApprovalDecided, o), PutApproval(a), PutChallenge(c)];
              store.State() == CommitAll(old(store.State()), rs[..commits])
      ensures r.Success? ==> o.id in store.tables.orders && store.tables.orders[o.id] == o
    {
      hide CommitAll;
      ghost var before := store.State();
      ghost var rs := [PutOrder(OrderApprovalDecided, o), PutApproval(a), PutChallenge(c)];
      NoneCommitted(before, rs);
      OneMoreCommitted(before, rs, 0);
      OneMoreCommitted(before, rs, 1);
      OneMoreCommitted(before, rs, 2);
      var appended := store.AppendWorkOrder(OrderApprovalDecided, o);
      if appended.Failure? {
        return Failure(Storage(appended.error)), 0;
      }
      var approved := store.RecordApproval(a);
      if approved.Failure? {
        return Failure(Storage(approved.error)), 1;
      }
      var recorded := store.RecordApprovalChallenge(c);
      if recorded.Failure? {
        return Failure(Storage(recorded.error)), 2;
      }
      r, commits := Success(()), 3;
    }

    // ----- Rebuilding -----

    method ReplayFromEvents() returns (r: Result<Checkpoint, AppError>)
      requires Valid()
      modifies this`history, store
      ensures Valid() && old(history) <= history && SameSweeps(Run(old(history)), Run(history))
      ensures r.Success? ==> history == old(history) + [RebuildStep] && r.value.lastEvent == |store.log|
    {
      hide Remember, Run, Rebuild;
      var rebuilt := store.RebuildFromEvents();
      RunSnoc(history, RebuildStep);
      ElsewhereKeepsSweeps(history, RebuildStep);
      if store.State() == Rebuild(old(store.State())) {
        history := history + [RebuildStep];
      }
      r := match rebuilt
        case Success(c) => Success(c)
        case Failure(e) => Failure(Storage(e));
    }

    /** Voice sessions, attention packets, memories, inventory cards, promotions and incidents. */
    method RecordControlPlane(c: ControlRow) returns (r: Result<(), AppError>, ghost commits: nat)
      requires Valid()
      modifies this`history, store
      ensures Valid() && history == old(history) + [OtherStep(PutControl(c), commits)]
      ensures commits == if r.Success? then 1 else 0
    {
      hide Run, Remember, CommitAll;
      ghost var before := store.State();
      ghost var rs := [PutControl(c)];
      NoneCommitted(before, rs);
      OneMoreCommitted(before, rs, 0);
      var recorded := store.RecordControlPlane(c);
      commits := if recorded.Success? then 1 else 0;
      CallIsStep(history, OtherStep(PutControl(c), commits), rs);
      history := history + [OtherStep(PutControl(c), commits)];
      r := match recorded
        case Success(_) => Success(())
        case Failure(e) => Failure(Storage(e));
    }

    // ----- Sweeps -----

    method ListAutoDispatchable() returns (r: Result<seq<OrderData>, AppError>)
      requires store.Valid()
      ensures r.Success? ==> exists all :: Listing(all, store.tables.orders) && r.value == Filtered(all)
      ensures r.Success? ==> ListsEvidenceOnly(r.value, store.tables.orders)
    {
      hide Listing, IsAutoDispatchable, ListsEvidenceOnly;
      var all := store.ListWorkOrders();
      if all.Failure? {
        return Failure(Storage(all.error));
      }
      var kept: seq<OrderData> := [];
      for i := 0 to |all.value|
        invariant kept == Filtered(all.value[..i])
      {
        assert all.value[..i + 1][..i] == all.value[..i];
        if IsAutoDispatchable(all.value[i]) {
          kept := kept + [all.value[i]];
        }
      }
      assert all.value[..|all.value|] == all.value;
      ListedExactly(kept, store.tables.orders);
      r := Success(kept);
    }

    /** Two transactions. */
    method ClaimWorkOrder(id: Id, holder: string, ttl: Time, now: Time)
      returns (r: Result<(WorkOrder, LeaseData), AppError>, ghost commits: nat)
      requires store.Valid()
      modifies store
      ensures store.Valid()
      ensures var rs := ClaimRecords(old(store.tables), id, holder, ttl, now);
              && commits <= |rs| && store.State() == CommitAll(old(store.State()), rs[..commits])
              && (r.Success? ==>
                    && fresh(r.value.0) && commits == |rs|
                    && rs == [PutLease(r.value.1), PutOrder(MicrotaskLeased, r.value.0.Data())])
              && (r.Failure? ==> commits < 2)
      ensures r.Success? ==>
                && id in old(store.tables).orders
                && var o := old(store.tables).orders[id];
                   && o.status == Status.Submitted
                   && r.value.0.Data() == o.(status := Status.Leased, updatedAt := now)
                   && r.value.1 == LeaseData(o.id, holder, now + ttl)
                   && o.id in store.tables.orders && store.tables.orders[o.id] == r.value.0.Data()
                   && Key(o.id, holder) in store.tables.leases && store.tables.leases[Key(o.id, holder)] == r.value.1
    {
      hide CommitAll;
      ghost var before := store.State();
      ghost var rs := ClaimRecords(store.tables, id, holder, ttl, now);
      NoneCommitted(before, rs);
      commits := 0;
      var found := store.GetWorkOrder(id);
      if found.Failure? {
        return Failure(Storage(found.error)), 0;
      }
      if found.value.None? {
        return Failure(NotFound), 0;
      }
      var order := new WorkOrder(found.value.value);
      var lease := order.Lease(holder, ttl, now);
      if lease.Failure? {
        return Failure(Refused(lease.error)), 0;
      }
      assert rs == [PutLease(lease.value), PutOrder(MicrotaskLeased, order.Data())];
      OneMoreCommitted(before, rs, 0);
      OneMoreCommitted(before, rs, 1);
      var granted := store.RecordLease(lease.value);
      if granted.Failure? {
        return Failure(Storage(granted.error)), 0;
      }
      var appended := store.AppendWorkOrder(MicrotaskLeased, order.Data());
      if appended.Failure? {
        return Failure(Storage(appended.error)), 1;
      }
      r, commits := Success((order, lease.value)), 2;
    }

    /** The write-back of a success: the evidence is attached to the claim-time snapshot. */
    method CompleteWorkOrder(order: WorkOrder, evidence: seq<Evidence>, now: Time)
      returns (r: Result<(), AppError>, ghost commits: nat)
      requires store.Valid()
      modifies order, store
      ensures store.Valid()
      ensures var rs := CompletedRecords(old(order.Data()), evidence, now);
              && commits <= |rs| && store.State() == CommitAll(old(store.State()), rs[..commits])
              && (r.Success? ==> rs == [PutOrder(MicrotaskCompleted, order.Data())] && commits == 1)
      ensures r.Success? ==>
                && order.status == Status.Completed && order.evidence == old(order.evidence) + evidence
                && order.attention == old(order.attention)
                && order.id in store.tables.orders && store.tables.orders[order.id] == order.Data()
    {
      hide CommitAll;
      ghost var before := store.State();
      ghost var snapshot := order.Data();
      ghost var rs := CompletedRecords(snapshot, evidence, now);
      NoneCommitted(before, rs);
      for i := 0 to |evidence|
        invariant order.Data() == snapshot.(evidence := snapshot.evidence + evidence[..i])
        invariant store.State() == before && store.Valid()
      {
        order.evidence := order.evidence + [evidence[i]];
      }
      assert evidence[..|evidence|] == evidence;
      var completed := order.Complete(now);
      if completed.Failure? {
        return Failure(Refused(completed.error)), 0;
      }
      OneMoreCommitted(before, rs, 0);
      var appended := store.AppendWorkOrder(MicrotaskCompleted, order.Data());
      if appended.Failure? {
        return Failure(Storage(appended.error)), 0;
      }
      r, commits := Success(()), 1;
    }

    /** The write-back of a failure. */
    method FailWorkOrder(order: WorkOrder, reason: string, now: Time) returns (r: Result<(), AppError>, ghost commits: nat)
      requires store.Valid()
      modifies order, store
      ensures store.Valid()
      ensures commits == (if r.Success? then 1 else 0)
      ensures store.State() == CommitAll(old(store.State()), FailedRecords(old(order.Data()), reason, now)[..commits])
      ensures order.status == Status.Failed && order.evidence == old(order.evidence)
      ensures order.attention == old(order.attention) + [Attention(Warn, reason)]
      ensures r.Success? ==> order.id in store.tables.orders && store.tables.orders[order.id] == order.Data()
    {
      hide CommitAll;
      ghost var before := store.State();
      ghost var rs := FailedRecords(order.Data(), reason, now);
      NoneCommitted(before, rs);
      OneMoreCommitted(before, rs, 0);
      order.Fail(reason, now);
      var appended := store.AppendWorkOrder(MicrotaskFailed, order.Data());
      if appended.Failure? {
        return Failure(Storage(appended.error)), 0;
      }
      r, commits := Success(()), 1;
    }

    /** Writes back what the executor came back with. */
    method WriteBack(order: WorkOrder, ran: ControlPlane.Ran, now: Time) returns (r: Result<(), AppError>, ghost commits: nat)
      requires store.Valid()
      modifies order, store
      ensures store.Valid()
      ensures var rs := FinishRecords(old(order.Data()), ran, now);
              && commits <= |rs| && store.State() == CommitAll(old(store.State()), rs[..commits])
              && (r.Success? ==> commits == 1)
      ensures r.Success? ==> order.id in store.tables.orders && store.tables.orders[order.id] == order.Data()
      ensures r.Success? && ran.Produced? && ran.evidence != [] ==>
                order.status == Status.Completed && order.evidence == old(order.evidence) + ran.evidence
      ensures r.Success? && !(ran.Produced? && ran.evidence != []) ==>
                && order.status == Status.Failed && order.evidence == old(order.evidence)
                && order.attention == old(order.attention) +
                     [Attention(Warn, if ran.Errored? then ran.reason else "no_evidence_produced")]
    {
      hide CommitAll, Commit;
      match ran {
        case Errored(reason) => r, commits := FailWorkOrder(order, reason, now);
        case Produced(evidence) =>
          if |evidence| == 0 {
            r, commits := FailWorkOrder(order, "no_evidence_produced", now);
          } else {
            r, commits := CompleteWorkOrder(order, evidence, now);
          }
      }
    }

    /** What others do while the lock is free: any number of calls, in any order. Callers rely on
        no more than the contract says, which also allows the steps of other sweeps. */
    method OtherCallers(ghost mine: nat)
      requires Valid()
      modifies this`history, store
      ensures Valid() && old(history) <= history
      ensures Spares(Run(old(history)), Run(history), mine)
    {
      hide Run;
      var rounds :| 0 <= rounds;
      for k := 0 to rounds
        invariant Valid() && old(history) <= history
        invariant SameSweeps(Run(old(history)), Run(history))
      {
        ghost var before := history;
        var now: Time := *;
        if
        case true =>
          var id: Id, subject: string, task: Task := *, *, *;
          if id != NIL && id !in store.tables.orders {
            ghost var commits;
            var submitted;
            submitted, commits := SubmitEnvelope(id, subject, task, now);
            ElsewhereKeepsSweeps(before, SubmitStep(id, subject, task, now, commits));
          }
        case true =>
          var c: CreateCall := *;
          if c.challenge !in store.tables.challenges {
            ghost var commits;
            var created;
            created, commits := CreateApprovalChallenge(c);
            ElsewhereKeepsSweeps(before, CreateStep(c, commits));
          }
        case true =>
          var d: DecideCall := *;
          ghost var commits;
          var decided;
          decided, commits := DecideApprovalByToken(d);
          ElsewhereKeepsSweeps(before, DecideStep(d, commits));
        case true =>
          var row: ControlRow := *;
          ghost var commits;
          var recorded;
          recorded, commits := RecordControlPlane(row);
          ElsewhereKeepsSweeps(before, OtherStep(PutControl(row), commits));
        case true =>
          var rebuilt := ReplayFromEvents();
      }
    }

    /** The adapter's answer. */
    method Execute(order: WorkOrder, lease: LeaseData, holder: string) returns (ran: ControlPlane.Ran)
    {
      ran := *;
    }

    /** Claims a listed work order and starts its execution. */
    method ClaimAndStart(order: OrderData, holder: string, ttl: Time, now: Time)
      returns (r: Result<(WorkOrder, LeaseData), AppError>, ghost serial: nat)
      requires Valid() && order in Run(history).listed
      modifies this`history, store
      ensures Valid() && old(history) <= history
      ensures Run(old(history)).listed == Run(history).listed && Run(old(history)).won <= Run(history).won
      ensures r.Success? ==>
                && history != [] && history[|history| - 1] == StartStep(serial)
                && serial < |Run(history).won| && Run(history).won[serial] == order.id
                && fresh(r.value.0) && serial in Run(history).tickets
                && Run(history).tickets[serial] == Ticket(r.value.0.Data(), r.value.1, holder, true)
    {
      hide Run, Remember, CommitAll, ClaimRecords;
      ghost var rs := ClaimRecords(store.tables, order.id, holder, ttl, now);
      ghost var commits;
      r, commits := ClaimWorkOrder(order.id, holder, ttl, now);
      ClaimIsStep(history, ClaimStep(order, holder, ttl, now, commits));
      assert commits == |rs| ==> rs[..commits] == rs;
      serial := |Run(history).won|;
      history := history + [ClaimStep(order, holder, ttl, now, commits)];
      if r.Success? {
        StartIsStep(history, serial);
        history := history + [StartStep(serial)];
      }
    }

    /** One listed work order: claimed, executed and written back. */
    method DispatchOne(order: OrderData, holder: string, ttl: Time)
      returns (r: Result<ControlPlane.Ran, AppError>, ghost serial: nat)
      requires Valid() && order in Run(history).listed
      modifies this`history, store
      ensures Valid() && old(history) <= history
      ensures Run(old(history)).listed <= Run(history).listed && Run(old(history)).won <= Run(history).won
      ensures r.Success? ==> Executed(history, order.id, serial, r.value)
    {
      hide Run, Remember, CommitAll, ClaimRecords, FinishRecords;
      serial := 0;
      OtherCallers(0);
      var now: Time := *;
      var claimed;
      ghost var commits;
      claimed, serial := ClaimAndStart(order, holder, ttl, now);
      if claimed.Failure? {
        return Failure(claimed.error), serial;
      }
      var (leased, lease) := claimed.value;
      ghost var started := |history| - 1;
      assert history[started] == StartStep(serial);
      OtherCallers(serial);
      var ran := Execute(leased, lease, holder);
      now := *;
      var written;
      written, commits := WriteBack(leased, ran, now);
      FinishIsStep(history, FinishStep(serial, ran, now, commits));
      history := history + [FinishStep(serial, ran, now, commits)];
      if written.Failure? {
        return Failure(written.error), serial;
      }
      assert history[started] == StartStep(serial);
      assert history[|history| - 1] == FinishStep(serial, ran, now, 1);
      assert Run(history).won[serial] == order.id;
      r := Success(ran);
    }

    /** One sweep. The lock is free between the listing, each claim and each write-back. If no call
        fails, every listed work order met exactly one fate, and the report counts them. */
    method DispatchMicrotasksOnce(holderFor: string -> Option<string>, ttl: Time)
      returns (r: Result<Report, AppError>, ghost listed: seq<OrderData>, ghost fates: seq<Fate>)
      requires Valid()
      modifies this`history, store
      ensures Valid() && old(history) <= history
      ensures |fates| <= |listed|
      ensures r.Success? || listed != [] ==> ListsEvidenceOnly(listed, old(store.tables.orders))
      ensures forall i | 0 <= i < |fates| :: Met(history, listed[i], fates[i], holderFor)
      ensures r.Success? ==> |fates| == |listed| && r.value == Tally(fates)
      ensures r.Success? ==> r.value.completed + r.value.failed + r.value.skipped == |listed|
      ensures r.Success? ==>
                && r.value.completed == |Where(fates, BroughtEvidence)| && r.value.failed == |Where(fates, BroughtNothing)|
                && r.value.skipped == |Where(fates, Skipped)|
    {
      hide Run, Remember, CommitAll, Listing, ClaimRecords, FinishRecords, ListsEvidenceOnly;
      var report := Report(0, 0, 0);
      listed, fates := [], [];
      var orders := ListAutoDispatchable();
      if orders.Failure? {
        return Failure(orders.error), [], [];
      }
      listed := orders.value;
      ListedAreDispatchable(listed, store.tables.orders);
      ListIsStep(history);
      history := history + [ListStep];
      for i := 0 to |orders.value|
        invariant Valid() && old(history) <= history
        invariant forall o | o in listed :: o in Run(history).listed
        invariant |fates| == i && report == Tally(fates)
        invariant forall k | 0 <= k < i :: Met(history, listed[k], fates[k], holderFor)
      {
        ghost var start := history;
        var order := orders.value[i];
        var holder := holderFor(order.task.kind);
        ghost var fate := Skip;
        if holder.None? {
          report := report.(skipped := report.skipped + 1);
        } else {
          ghost var serial;
          var done;
          done, serial := DispatchOne(order, holder.value, ttl);
          if done.Failure? {
            MetStays(start, history, listed, fates, holderFor);
            return Failure(done.error), listed, fates;
          }
          fate := Ran(serial, done.value);
          match done.value {
            case Produced(evidence) =>
              if |evidence| == 0 {
                report := report.(failed := report.failed + 1);
              } else {
                report := report.(completed := report.completed + 1);
              }
            case Errored(_) => report := report.(failed := report.failed + 1);
          }
        }
        MetStays(start, history, listed, fates, holderFor);
        TallySnoc(fates, fate);
        fates := fates + [fate];
      }
      TallyCountsEachOnce(fates);
      TallyCounts(fates);
      r := Success(report);
    }

    // ----- The generator -----

    method HasOpenMicrotask(microtask: string, repo: Option<string>) returns (r: Result<bool, AppError>)
      requires store.Valid()
      ensures r.Success? ==> (r.value <==> exists k | k in store.tables.orders :: InFlight(store.tables.orders[k], microtask, repo))
      ensures r.Failure? ==> r.error.Storage?
    {
      hide Listing, OpenMatch, InFlight;
      GuardedExactly(store.tables.orders, microtask, repo);
      var all := store.ListWorkOrders();
      if all.Failure? {
        return Failure(Storage(all.error));
      }
      for i := 0 to |all.value|
        invariant forall k | 0 <= k < i :: !OpenMatch(all.value[k], microtask, repo)
      {
        if OpenMatch(all.value[i], microtask, repo) {
          ListingShowsRows(all.value, store.tables.orders, all.value[i]);
          return Success(true);
        }
      }
      forall id | id in store.tables.orders
        ensures !OpenMatch(store.tables.orders[id], microtask, repo)
      {
        ListingShowsRows(all.value, store.tables.orders, store.tables.orders[id]);
      }
      r := Success(false);
    }

    /** One generator tick. Between the look for an open duplicate and the submission the lock is
        free; what is submitted passes the dispatch gate and would be found by the next tick. */
    method GenerateMicrotaskIfAbsent(g: Generation, at: Surroundings, now: Time)
      returns (r: Result<Option<OrderData>, AppError>, ghost commits: nat)
      requires Valid()
      modifies this`history, store
      ensures Valid() && old(history) <= history
      ensures r.Success? ==>
                var rows := old(store.tables.orders);
                (r.value.None? <==> exists k | k in rows :: InFlight(rows[k], g.definition.id, g.overrides.repo))
      ensures r.Success? && r.value.Some? ==>
                var o := r.value.value;
                && history != [] && history[|history| - 1] == EnqueueStep(o.id, at, now, 1)
                && o.id in store.tables.orders && store.tables.orders[o.id] == o
                && IsAutoDispatchable(o) && OpenMatch(o, g.definition.id, g.overrides.repo)
      ensures r.Failure? && r.error.Override? ==> Payload(g.definition, g.overrides, None, at) == Failure(r.error.rejection)
    {
      hide Run, Remember, CommitAll, OpenMatch, Payload, GateOpen, InFlight;
      GuardedExactly(store.tables.orders, g.definition.id, g.overrides.repo);
      commits := 0;
      var open := HasOpenMicrotask(g.definition.id, g.overrides.repo);
      if open.Failure? {
        return Failure(open.error), 0;
      }
      CheckIsStep(history, g);
      history := history + [CheckStep(g)];
      if open.value {
        return Success(None), 0;
      }
      OtherCallers(0);
      var submitted;
      submitted, commits := SubmitPending(g, at, now);
      r := match submitted
        case Success(o) => Success(Some(o))
        case Failure(e) => Failure(e);
    }

    /** The submission of a tick that found no open duplicate. */
    method SubmitPending(g: Generation, at: Surroundings, now: Time) returns (r: Result<OrderData, AppError>, ghost commits: nat)
      requires Valid() && Run(history).pending == Some(g)
      modifies this`history, store
      ensures Valid() && old(history) <= history
      ensures r.Success? ==>
                && history != [] && history[|history| - 1] == EnqueueStep(r.value.id, at, now, 1)
                && r.value.id in store.tables.orders && store.tables.orders[r.value.id] == r.value
                && IsAutoDispatchable(r.value) && OpenMatch(r.value, g.definition.id, g.overrides.repo)
      ensures r.Failure? && r.error.Override? ==> Payload(g.definition, g.overrides, None, at) == Failure(r.error.rejection)
    {
      hide Run, Remember, CommitAll, OpenMatch, Payload, GateOpen;
      commits := 0;
      var id := FreshId(store.tables.orders.Keys);
      var payload := MicrotaskPayload(g.definition, g.overrides, None, at);
      ghost var rs := EnqueueRecords(store.tables, g, id, at, now);
      ghost var before := store.State();
      NoneCommitted(before, rs);
      if payload.Failure? {
        CallIsStep(history, EnqueueStep(id, at, now, 0), rs);
        history := history + [EnqueueStep(id, at, now, 0)];
        return Failure(Override(payload.error)), 0;
      }
      var task := Task(g.definition.workOrderKind, payload.value);
      OneMoreCommitted(before, rs, 0);
      r, commits := Submit(id, g.definition.subject, task, now);
      CallIsStep(history, EnqueueStep(id, at, now, commits), rs);
      history := history + [EnqueueStep(id, at, now, commits)];
      if r.Success? {
        AcceptedPayloadPassesGate(g.definition, g.overrides, None, at);
        GuardSeesGeneratedTask(r.value, g.definition, g.overrides, None, at);
      }
    }
  }

  /** An id that is not taken, as a new uuid is. */
  method FreshId(taken: set<Id>) returns (id: Id)
    ensures id != NIL && id !in taken
  {
    id := 1;
    var rest := taken;
    while rest != {}
      invariant rest <= taken && id >= 1
      invariant forall x | x in taken && x !in rest :: x < id
      decreases |rest|
    {
      var x :| x in rest;
      id := if x < id then id else x + 1;
      rest := rest - {x};
    }
  }

  // ----- What holds of the store between any two calls -----

  /** The theorems about runs are theorems about the object. */
  lemma StoreIsSafe(app: AppState, id: Id)
    requires app.Valid()
    ensures Decisions(app.store.log, id) <= 1
    ensures StoreInv(app.store.State())
    ensures Rebuilt(Replay(app.store.log)).Some?
  {
    Safety.DecidedAtMostOnce(app.history, id);
    RunInv(app.history);
    SystemStoreInv(Run(app.history));
    Safety.RebuildIsHarmlessInEveryRun(app.history);
  }
}
