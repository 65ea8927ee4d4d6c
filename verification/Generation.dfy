/** The microtask generator under dispatch: never two open microtasks of one entry and repository,
    although the duplicate check and the submission lock the store separately. */
module Generation {
  import opened Wrappers
  import opened Domain
  import opened EventStore
  import opened StoreInvariant
  import opened Microtasks
  import opened ControlPlane
  import opened SystemInvariant
  import Json

  predicate OpenMicrotask(o: OrderData) {
    IsMicrotask(o.task) && Open(o)
  }

  predicate SameWork(a: OrderData, b: OrderData) {
    MicrotaskId(a.task) == MicrotaskId(b.task) && Cwd(a.task) == Cwd(b.task)
  }

  /** No two open microtasks are of the same entry on the same repository, and a tick that is about
      to submit still has no duplicate. */
  ghost predicate NoDuplicates(s: System) {
    var o := s.store.tables.orders;
    && (forall a, b | a in o && b in o && a != b && OpenMicrotask(o[a]) && OpenMicrotask(o[b]) :: !SameWork(o[a], o[b]))
    && (s.pending.Some? ==> !HasOpenMicrotask(o, s.pending.value.definition.id, s.pending.value.overrides.repo))
  }

  /** Microtasks are submitted by the generator only, and the tables are not rebuilt. */
  predicate OnlyGenerated(st: Step) {
    !st.RebuildStep? && (st.SubmitStep? ==> !IsMicrotask(st.task))
  }

  lemma SubmittedAttempt(s: System, st: Step, o: OrderData)
    requires PutOrder(OrderSubmitted, o) in Attempt(s, st)
    ensures o.status == Status.Submitted
    ensures || (st.SubmitStep? && o.task == st.task)
            || (st.EnqueueStep? && s.pending.Some?
                && var g := s.pending.value;
                   var payload := Payload(g.definition, g.overrides, None, st.at);
                   payload.Success? && o.task == Task(g.definition.workOrderKind, payload.value))
  {
  }

  /** A generated work order passes the dispatch gate, and any open work order of the same entry and
      repository would have stopped the tick. */
  lemma GeneratedOrder(g: Generation, at: Surroundings, o: OrderData)
    requires var payload := Payload(g.definition, g.overrides, None, at);
             payload.Success? && o.task == Task(g.definition.workOrderKind, payload.value)
    ensures GateOpen(o.task)
    ensures forall other: OrderData :: OpenMicrotask(other) && SameWork(o, other) ==>
              OpenMatch(other, g.definition.id, g.overrides.repo)
  {
    AcceptedPayloadPassesGate(g.definition, g.overrides, None, at);
  }

  /** A work order that a step adds is the submitted or the generated one. */
  lemma AddedOrder(s: System, st: Step, id: Id)
    requires SystemInv(s) && !st.RebuildStep?
    requires id !in s.store.tables.orders && id in Next(s, st).store.tables.orders
    ensures PutOrder(OrderSubmitted, Next(s, st).store.tables.orders[id]) in Attempt(s, st)
    ensures forall k | k in Next(s, st).store.tables.orders && k != id ::
              k in s.store.tables.orders && Next(s, st).store.tables.orders[k] == s.store.tables.orders[k]
  {
    StepWrites(s, st);
    WrittenIsARecord(StepRecords(s, st));
    AttemptWritesOneOrder(s, st);
  }

  lemma MoveKeepsNoDuplicates(o: map<Id, OrderData>, o': map<Id, OrderData>)
    requires OrdersMove(o, o')
    requires forall a, b | a in o && b in o && a != b && OpenMicrotask(o[a]) && OpenMicrotask(o[b]) :: !SameWork(o[a], o[b])
    ensures forall a, b | a in o && b in o && a != b && OpenMicrotask(o'[a]) && OpenMicrotask(o'[b]) :: !SameWork(o'[a], o'[b])
    ensures forall id: string, repo, k | k in o && OpenMatch(o'[k], id, repo) :: OpenMatch(o[k], id, repo)
  {
  }

  lemma AddedMicrotaskIsGenerated(s: System, st: Step, id: Id)
    requires SystemInv(s) && NoDuplicates(s) && OnlyGenerated(st)
    requires id !in s.store.tables.orders && id in Next(s, st).store.tables.orders
    requires IsMicrotask(Next(s, st).store.tables.orders[id].task)
    ensures st.EnqueueStep? && Next(s, st).pending.None?
    ensures forall k | k in s.store.tables.orders && OpenMicrotask(s.store.tables.orders[k]) ::
              !SameWork(Next(s, st).store.tables.orders[id], s.store.tables.orders[k])
    ensures IsAutoDispatchable(Next(s, st).store.tables.orders[id])
  {
    var o' := Next(s, st).store.tables.orders;
    AddedOrder(s, st, id);
    SubmittedAttempt(s, st, o'[id]);
    GeneratedOrder(s.pending.value, st.at, o'[id]);
    PendingClears(s, st);
  }

  lemma PendingClears(s: System, st: Step)
    requires st.EnqueueStep?
    ensures Next(s, st).pending.None?
  {
  }

  /** Only a check sets `pending`, and it does not touch the store. */
  lemma PendingAfterStep(s: System, st: Step)
    requires Next(s, st).pending.Some?
    ensures || Next(s, st).pending == s.pending
            || (Next(s, st).store == s.store
                && !HasOpenMicrotask(s.store.tables.orders, Next(s, st).pending.value.definition.id,
                                     Next(s, st).pending.value.overrides.repo))
  {
  }

  lemma StepKeepsNoDuplicates(s: System, st: Step)
    requires SystemInv(s) && NoDuplicates(s) && OnlyGenerated(st)
    ensures NoDuplicates(Next(s, st))
  {
    hide ControlPlane.Next, ControlPlane.StepRecords, ControlPlane.Attempt, SystemInvariant.SystemInv;
    var s' := Next(s, st);
    var o, o' := s.store.tables.orders, s'.store.tables.orders;
    StepMovesOrders(s, st);
    MoveKeepsNoDuplicates(o, o');
    if id :| id in o' && id !in o {
      AddedOrder(s, st, id);
      if IsMicrotask(o'[id].task) {
        AddedMicrotaskIsGenerated(s, st, id);
      }
    }
    if s'.pending.Some? {
      PendingAfterStep(s, st);
    }
  }

  /** In every run of generator ticks, dispatching, approvals and crashes without rebuild, at most
      one open microtask exists for each entry and repository. */
  lemma {:induction false} NeverTwoOpenDuplicates(steps: seq<Step>)
    requires forall i | 0 <= i < |steps| :: OnlyGenerated(steps[i])
    ensures NoDuplicates(Run(steps))
  {
    if steps != [] {
      var n := |steps| - 1;
      NeverTwoOpenDuplicates(steps[..n]);
      RunInv(steps[..n]);
      StepKeepsNoDuplicates(Run(steps[..n]), steps[n]);
    }
  }
}
