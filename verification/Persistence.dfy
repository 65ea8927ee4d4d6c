/** The store object: a log, its projection tables and the checkpoints of past rebuilds. Each write
    is a transaction that may be refused by the database, and is then rolled back. */
module Persistence {
  import opened Wrappers
  import opened Domain
  import opened EventStore

  datatype StoreError = Sqlite

  class SqliteStore {
    var log: seq<Event>
    var tables: Tables
    var checkpoints: seq<Checkpoint>

    constructor ()
      ensures Valid() && State() == EMPTY_STORE && checkpoints == []
    {
      log, tables, checkpoints := [], EMPTY_TABLES, [];
    }

    /** The unique constraint on token hashes. */
    ghost predicate Valid() reads this {
      UniqueHashes(tables.challenges)
    }

    function State(): Store reads this {
      Store(log, tables)
    }

    // ----- Transactions -----

    /** The end of a transaction: the database commits it, or refuses and restores what was `saved`. */
    method End(saved: Store) returns (r: Result<(), StoreError>)
      modifies this
      ensures checkpoints == old(checkpoints)
      ensures State() == if r.Success? then old(State()) else saved
    {
      if * {
        log, tables := saved.log, saved.tables;
        return Failure(Sqlite);
      }
      r := Success(());
    }

    method AppendWorkOrder(name: OrderEvent, o: OrderData) returns (r: Result<(), StoreError>)
      requires Valid()
      modifies this
      ensures Valid() && checkpoints == old(checkpoints)
      ensures State() == if r.Success? then Commit(old(State()), PutOrder(name, o)) else old(State())
    {
      var saved := State();
      log := log + [OrderLogged(name, o)];
      tables := tables.(orders := tables.orders[o.id := o]);
      r := End(saved);
    }

    method RecordLease(l: LeaseData) returns (r: Result<(), StoreError>)
      requires Valid()
      modifies this
      ensures Valid() && checkpoints == old(checkpoints)
      ensures State() == if r.Success? then Commit(old(State()), PutLease(l)) else old(State())
    {
      var saved := State();
      log := log + [LeaseGranted(l)];
      tables := tables.(leases := tables.leases[Key(l.order, l.holder) := l]);
      r := End(saved);
    }

    method RecordApproval(a: ApprovalData) returns (r: Result<(), StoreError>)
      requires Valid()
      modifies this
      ensures Valid() && checkpoints == old(checkpoints)
      ensures State() == if r.Success? then Commit(old(State()), PutApproval(a)) else old(State())
    {
      var saved := State();
      log := log + [ApprovalRecorded(a)];
      tables := tables.(approvals := tables.approvals[Key(a.order, a.approver) := a]);
      r := End(saved);
    }

    /** The upsert of a challenge row, refused on another row's token hash. */
    method InsertChallenge(c: ChallengeData) returns (r: Result<(), StoreError>)
      requires Valid()
      modifies this
      ensures Valid() && checkpoints == old(checkpoints) && log == old(log)
      ensures match UpsertChallenge(old(tables.challenges), c)
              case Some(rows) => r == Success(()) && tables == old(tables).(challenges := rows)
              case None => r == Failure(Sqlite) && tables == old(tables)
    {
      var rows := tables.challenges;
      if id :| id in rows && id != c.id && rows[id].tokenHash == c.tokenHash {
        return Failure(Sqlite);
      }
      assert !TokenClash(rows, c);
      if c.id in rows {
        tables := tables.(challenges := rows[c.id := rows[c.id].(data := c)]);
      } else {
        tables := tables.(challenges := rows[c.id := ChallengeRow(c.tokenHash, c)]);
      }
      r := Success(());
    }

    method RecordApprovalChallenge(c: ChallengeData) returns (r: Result<(), StoreError>)
      requires Valid()
      modifies this
      ensures Valid() && checkpoints == old(checkpoints)
      ensures r.Success? ==> !TokenClash(old(tables.challenges), c)
      ensures State() == if r.Success? then Commit(old(State()), PutChallenge(c)) else old(State())
    {
      var saved := State();
      log := log + [ChallengeRecorded(c)];
      var inserted := InsertChallenge(c);
      if inserted.Failure? {
        log, tables := saved.log, saved.tables;
        return inserted;
      }
      r := End(saved);
    }

    method RecordEvidence(about: Option<Id>, e: Evidence) returns (r: Result<(), StoreError>)
      requires Valid()
      modifies this
      ensures Valid() && checkpoints == old(checkpoints)
      ensures State() == if r.Success? then Commit(old(State()), PutEvidence(about, e)) else old(State())
    {
      var saved := State();
      log := log + [EvidenceRecorded(if about.Some? then about.value else NIL, e)];
      tables := tables.(evidence := tables.evidence + [EvidenceRow(about, e)]);
      r := End(saved);
    }

    method RecordAdapterHealth(h: AdapterHealth) returns (r: Result<(), StoreError>)
      requires Valid()
      modifies this
      ensures Valid() && checkpoints == old(checkpoints)
      ensures State() == if r.Success? then Commit(old(State()), PutHealth(h)) else old(State())
    {
      var saved := State();
      log := log + [HealthReported(h)];
      tables := tables.(health := tables.health[h.name := h]);
      r := End(saved);
    }

    method RecordEffect(e: Effect) returns (r: Result<(), StoreError>)
      requires Valid()
      modifies this
      ensures Valid() && checkpoints == old(checkpoints)
      ensures State() == if r.Success? then Commit(old(State()), PutEffect(e)) else old(State())
    {
      var saved := State();
      log := log + [EffectRecorded(e)];
      tables := tables.(effects := tables.effects[e.id := e]);
      r := End(saved);
    }

    method RecordControlPlane(c: ControlRow) returns (r: Result<(), StoreError>)
      requires Valid()
      modifies this
      ensures Valid() && checkpoints == old(checkpoints)
      ensures State() == if r.Success? then Commit(old(State()), PutControl(c)) else old(State())
    {
      var saved := State();
      log := log + [ControlRecorded(c)];
      tables := tables.(controls := tables.controls[c.id := c]);
      r := End(saved);
    }

    // ----- Look-ups -----

    method GetWorkOrder(id: Id) returns (r: Result<Option<OrderData>, StoreError>)
      ensures r.Success? ==> r.value == if id in tables.orders then Some(tables.orders[id]) else None
    {
      if * {
        return Failure(Sqlite);
      }
      r := Success(if id in tables.orders then Some(tables.orders[id]) else None);
    }

    method GetApproval(order: Id, approver: string) returns (r: Result<Option<ApprovalData>, StoreError>)
      ensures var key := Key(order, approver);
              r.Success? ==> r.value == if key in tables.approvals then Some(tables.approvals[key]) else None
    {
      if * {
        return Failure(Sqlite);
      }
      var key := Key(order, approver);
      r := Success(if key in tables.approvals then Some(tables.approvals[key]) else None);
    }

    /** The token hash leads to one challenge, because the column is unique. */
    method ApprovalChallengeByTokenHash(hash: string) returns (r: Result<Option<ChallengeData>, StoreError>)
      requires Valid()
      ensures r.Success? ==> r.value == FindByHash(tables.challenges, hash)
    {
      if * {
        return Failure(Sqlite);
      }
      var rows := tables.challenges;
      if id :| id in rows && rows[id].tokenHash == hash {
        return Success(Some(rows[id].data));
      }
      r := Success(None);
    }

    /** All work orders, latest change first. */
    method ListWorkOrders() returns (r: Result<seq<OrderData>, StoreError>)
      ensures r.Success? ==> Listing(r.value, tables.orders)
    {
      if * {
        return Failure(Sqlite);
      }
      var listed: seq<OrderData> := [];
      ghost var ids: seq<Id> := [];
      var rest := tables.orders.Keys;
      while rest != {}
        invariant rest <= tables.orders.Keys
        invariant LatestFirst(listed)
        invariant ListsIds(listed, ids, tables.orders, tables.orders.Keys - rest)
        decreases |rest|
      {
        var id :| id in rest;
        ids := InsertedShows(listed, ids, tables.orders, tables.orders.Keys - rest, id);
        listed := Inserted(listed, tables.orders[id]);
        rest := rest - {id};
        assert tables.orders.Keys - rest == tables.orders.Keys - (rest + {id}) + {id};
      }
      assert tables.orders.Keys - {} == tables.orders.Keys;
      r := Success(listed);
    }

    /** All events with an id above the cursor, in id order. */
    method EventsAfter(after: int) returns (r: Result<seq<StoredEvent>, StoreError>)
      ensures r.Success? ==> r.value == EventStore.EventsAfter(log, after, |log|)
    {
      if * {
        return Failure(Sqlite);
      }
      var rows: seq<StoredEvent> := [];
      for i := 0 to |log|
        invariant rows == EventStore.EventsAfter(log, after, i)
      {
        if i + 1 > after {
          rows := rows + [StoredEvent(i + 1, log[i])];
        }
      }
      r := Success(rows);
    }

    // ----- Replay -----

    method ReplayProjection() returns (p: Replayed)
      ensures p == Replay(log)
    {
      p := EMPTY_REPLAY;
      for i := 0 to |log|
        invariant p == Replay(log[..i])
      {
        assert log[..i + 1][..i] == log[..i];
        p := Push(p, log[i]);
      }
      assert log[..|log|] == log;
    }

    static method Push(p: Replayed, e: Event) returns (after: Replayed)
      ensures after == ReplayEvent(p, e)
    {
      after := p;
      match e {
        case OrderLogged(name, o) =>
          if Replayable(name) {
            after := after.(orders := after.orders[o.id := o]);
          }
        case LeaseGranted(l) => after := after.(leases := after.leases + [l]);
        case ApprovalRecorded(a) => after := after.(approvals := after.approvals + [a]);
        case ChallengeRecorded(c) => after := after.(challenges := after.challenges + [c]);
        case EvidenceRecorded(about, ev) =>
          if about in after.orders {
            var o := after.orders[about];
            if !HasUri(o.evidence, ev.uri) {
              o := o.(evidence := o.evidence + [ev]);
            }
            after := after.(orders := after.orders[about := o]);
          }
          after := after.(evidence := after.evidence + [EvidenceRow(if about == NIL then None else Some(about), ev)]);
        case HealthReported(h) => after := after.(health := after.health + [h]);
        case EffectRecorded(ef) => after := after.(effects := after.effects + [ef]);
        case ControlRecorded(c) => after := after.(controls := after.controls + [c]);
      }
    }

    // ----- Rebuild -----

    method ProjectOrders(orders: map<Id, OrderData>)
      requires forall id | id in orders :: orders[id].id == id
      requires tables.orders == map[]
      modifies this`tables
      ensures tables == old(tables).(orders := orders)
    {
      var rest := orders.Keys;
      while rest != {}
        invariant rest <= orders.Keys
        invariant tables == old(tables).(orders := map id | id in orders && id !in rest :: orders[id])
        decreases |rest|
      {
        var id :| id in rest;
        var o := orders[id];
        tables := tables.(orders := tables.orders[o.id := o]);
        rest := rest - {id};
      }
    }

    method ProjectLeases(ls: seq<LeaseData>)
      requires tables.leases == map[]
      modifies this`tables
      ensures tables == old(tables).(leases := PutLeases(ls))
    {
      for i := 0 to |ls|
        invariant tables == old(tables).(leases := PutLeases(ls[..i]))
      {
        assert ls[..i + 1] == ls[..i] + [ls[i]];
        PutLeasesSnoc(ls[..i], ls[i]);
        tables := tables.(leases := tables.leases[Key(ls[i].order, ls[i].holder) := ls[i]]);
      }
      assert ls[..|ls|] == ls;
    }

    method ProjectApprovals(rows: seq<ApprovalData>)
      requires tables.approvals == map[]
      modifies this`tables
      ensures tables == old(tables).(approvals := PutApprovals(rows))
    {
      for i := 0 to |rows|
        invariant tables == old(tables).(approvals := PutApprovals(rows[..i]))
      {
        assert rows[..i + 1] == rows[..i] + [rows[i]];
        PutApprovalsSnoc(rows[..i], rows[i]);
        tables := tables.(approvals := tables.approvals[Key(rows[i].order, rows[i].approver) := rows[i]]);
      }
      assert rows[..|rows|] == rows;
    }

    /** Stops at the first challenge whose token hash is taken. */
    method ProjectChallenges(cs: seq<ChallengeData>) returns (r: Result<(), StoreError>)
      requires Valid() && tables.challenges == map[]
      modifies this
      ensures Valid() && log == old(log) && checkpoints == old(checkpoints)
      ensures r.Success? <==> PutChallenges(cs).Some?
      ensures r.Success? ==> tables == old(tables).(challenges := PutChallenges(cs).value)
    {
      for i := 0 to |cs|
        invariant Valid() && log == old(log) && checkpoints == old(checkpoints)
        invariant PutChallenges(cs[..i]).Some? && tables == old(tables).(challenges := PutChallenges(cs[..i]).value)
      {
        assert cs[..i + 1] == cs[..i] + [cs[i]];
        PutChallengesSnoc(cs[..i], cs[i]);
        r := InsertChallenge(cs[i]);
        if r.Failure? {
          FailedPrefix(cs, i + 1);
          return;
        }
      }
      assert cs[..|cs|] == cs;
      r := Success(());
    }

    method ProjectEvidence(rows: seq<EvidenceRow>)
      requires tables.evidence == []
      modifies this`tables
      ensures tables == old(tables).(evidence := rows)
    {
      for i := 0 to |rows|
        invariant tables == old(tables).(evidence := rows[..i])
      {
        tables := tables.(evidence := tables.evidence + [rows[i]]);
      }
    }

    method ProjectHealth(hs: seq<AdapterHealth>)
      requires tables.health == map[]
      modifies this`tables
      ensures tables == old(tables).(health := PutHealths(hs))
    {
      for i := 0 to |hs|
        invariant tables == old(tables).(health := PutHealths(hs[..i]))
      {
        assert hs[..i + 1] == hs[..i] + [hs[i]];
        PutHealthsSnoc(hs[..i], hs[i]);
        tables := tables.(health := tables.health[hs[i].name := hs[i]]);
      }
      assert hs[..|hs|] == hs;
    }

    method ProjectEffects(es: seq<Effect>)
      requires tables.effects == map[]
      modifies this`tables
      ensures tables == old(tables).(effects := PutEffects(es))
    {
      for i := 0 to |es|
        invariant tables == old(tables).(effects := PutEffects(es[..i]))
      {
        assert es[..i + 1] == es[..i] + [es[i]];
        PutEffectsSnoc(es[..i], es[i]);
        tables := tables.(effects := tables.effects[es[i].id := es[i]]);
      }
      assert es[..|es|] == es;
    }

    /** Kind after kind, and within a kind in log order. */
    method ProjectControls(rows: seq<ControlRow>)
      requires tables.controls == map[]
      modifies this`tables
      ensures tables == old(tables).(controls := PutControls(Grouped(rows, RANKS)))
    {
      for rank := 0 to RANKS
        invariant tables == old(tables).(controls := PutControls(Grouped(rows, rank)))
      {
        ProjectOfRank(rows, rank, Grouped(rows, rank));
      }
    }

    method ProjectOfRank(rows: seq<ControlRow>, rank: nat, ghost before: seq<ControlRow>)
      requires tables.controls == PutControls(before)
      modifies this`tables
      ensures tables == old(tables).(controls := PutControls(before + OfRank(rows, rank)))
    {
      hide PutControls, OfRank;
      NoRowsOfRank(before, rank);
      assert rows[..0] == [];
      for i := 0 to |rows|
        invariant tables == old(tables).(controls := PutControls(before + OfRank(rows[..i], rank)))
      {
        NextOfRank(before, rows, rank, i);
        if Rank(rows[i].kind) == rank {
          tables := tables.(controls := tables.controls[rows[i].id := rows[i]]);
        }
      }
      assert rows[..|rows|] == rows;
    }

    /** Forgets the tables and projects the log again, in one transaction; the checkpoint is written
        after it. */
    method RebuildFromEvents() returns (r: Result<Checkpoint, StoreError>)
      requires Valid()
      modifies this
      ensures Valid() && log == old(log)
      ensures State() in {old(State()), Rebuild(old(State()))}
      ensures match r
              case Failure(_) => checkpoints == old(checkpoints)
              case Success(c) =>
                && State() == Rebuild(old(State())) && Rebuilt(Replay(log)).Some?
                && c == Checkpoint(|log|, |Replay(log).orders|)
                && checkpoints == old(checkpoints) + [c]
    {
      var saved := State();
      var p := ReplayProjection();
      ReplayedKeys(log);
      hide Replay, PutLeases, PutApprovals, PutChallenges, PutHealths, PutEffects, PutControls, Grouped;
      tables := EMPTY_TABLES;
      ProjectOrders(p.orders);
      ProjectLeases(p.leases);
      ProjectApprovals(p.approvals);
      var inserted := ProjectChallenges(p.challenges);
      if inserted.Failure? {
        log, tables := saved.log, saved.tables;
        return Failure(Sqlite);
      }
      ProjectEvidence(p.evidence);
      ProjectHealth(p.health);
      ProjectEffects(p.effects);
      ProjectControls(p.controls);
      var committed := End(saved);
      if committed.Failure? {
        return Failure(Sqlite);
      }
      var checkpoint := Checkpoint(|log|, |p.orders|);
      if * {
        return Failure(Sqlite);
      }
      checkpoints := checkpoints + [checkpoint];
      r := Success(checkpoint);
    }
  }

  // ----- Listing -----

  predicate LatestFirst(listed: seq<OrderData>) {
    forall i, j | 0 <= i < j < |listed| :: listed[i].updatedAt >= listed[j].updatedAt
  }

  /** Where a work order goes in a listing. */
  function Position(listed: seq<OrderData>, o: OrderData): (at: nat)
    ensures at <= |listed|
    ensures forall i | 0 <= i < at :: listed[i].updatedAt >= o.updatedAt
    ensures at < |listed| ==> listed[at].updatedAt < o.updatedAt
  {
    if listed == [] || listed[0].updatedAt < o.updatedAt then 0 else 1 + Position(listed[1..], o)
  }

  function Inserted(listed: seq<OrderData>, o: OrderData): seq<OrderData> {
    listed[..Position(listed, o)] + [o] + listed[Position(listed, o)..]
  }

  /** `listed` shows the rows `ids`, and those are `shown`, each once. */
  ghost predicate ListsIds(listed: seq<OrderData>, ids: seq<Id>, orders: map<Id, OrderData>, shown: set<Id>) {
    && |ids| == |listed|
    && multiset(ids) == multiset(shown)
    && forall i | 0 <= i < |ids| :: ids[i] in orders && listed[i] == orders[ids[i]]
  }

  /** Every row of the table once, latest change first. */
  ghost predicate Listing(listed: seq<OrderData>, orders: map<Id, OrderData>) {
    LatestFirst(listed) && exists ids :: ListsIds(listed, ids, orders, orders.Keys)
  }

  // ----- Facts the loops need -----

  lemma InsertedShows(listed: seq<OrderData>, ids: seq<Id>, orders: map<Id, OrderData>, shown: set<Id>, id: Id)
    returns (ids': seq<Id>)
    requires LatestFirst(listed) && ListsIds(listed, ids, orders, shown)
    requires id in orders && id !in shown
    ensures LatestFirst(Inserted(listed, orders[id]))
    ensures ListsIds(Inserted(listed, orders[id]), ids', orders, shown + {id})
  {
    hide Position, LatestFirst;
    var at := Position(listed, orders[id]);
    ids' := ids[..at] + [id] + ids[at..];
    assert ids == ids[..at] + ids[at..];
    assert multiset(shown + {id}) == multiset(shown) + multiset{id};
    InsertedLatestFirst(listed, orders[id]);
    forall i | 0 <= i < |ids'|
      ensures ids'[i] in orders && Inserted(listed, orders[id])[i] == orders[ids'[i]]
    {
      if i < at {
        assert ids'[i] == ids[i];
      } else if i > at {
        assert ids'[i] == ids[i - 1];
      }
    }
  }

  lemma InsertedLatestFirst(listed: seq<OrderData>, o: OrderData)
    requires LatestFirst(listed)
    ensures LatestFirst(Inserted(listed, o))
  {
    hide Position;
    var at := Position(listed, o);
    var longer := Inserted(listed, o);
    forall i, j | 0 <= i < j < |longer|
      ensures longer[i].updatedAt >= longer[j].updatedAt
    {
      assert at < |listed| ==> forall k | at <= k < |listed| :: listed[k].updatedAt <= listed[at].updatedAt;
      assert longer[i] == if i < at then listed[i] else if i == at then o else listed[i - 1];
      assert longer[j] == if j < at then listed[j] else if j == at then o else listed[j - 1];
    }
  }

  lemma {:induction false} FailedPrefix(cs: seq<ChallengeData>, i: nat)
    requires i <= |cs| && PutChallenges(cs[..i]).None?
    ensures PutChallenges(cs).None?
    decreases |cs| - i
  {
    if i == |cs| {
      assert cs[..i] == cs;
    } else {
      assert cs[..i + 1][..i] == cs[..i];
      FailedPrefix(cs, i + 1);
    }
  }

  lemma NoRowsOfRank(before: seq<ControlRow>, rank: nat)
    ensures before + OfRank([], rank) == before
  {
  }

  lemma NextOfRank(before: seq<ControlRow>, rows: seq<ControlRow>, rank: nat, i: nat)
    requires i < |rows|
    ensures var next := before + OfRank(rows[..i + 1], rank);
            PutControls(next) ==
            if Rank(rows[i].kind) == rank then PutControls(before + OfRank(rows[..i], rank))[rows[i].id := rows[i]]
            else PutControls(before + OfRank(rows[..i], rank))
  {
    hide PutControls;
    assert rows[..i + 1][..i] == rows[..i];
    var done := before + OfRank(rows[..i], rank);
    if Rank(rows[i].kind) == rank {
      assert before + OfRank(rows[..i + 1], rank) == done + [rows[i]];
      PutControlsSnoc(done, rows[i]);
    } else {
      assert before + OfRank(rows[..i + 1], rank) == done;
    }
  }

  lemma {:induction false} ReplayedKeys(log: seq<Event>)
    ensures forall id | id in Replay(log).orders :: Replay(log).orders[id].id == id
  {
    if log != [] {
      ReplayedKeys(log[..|log| - 1]);
    }
  }
}
