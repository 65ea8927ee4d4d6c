/** A rebuild against the incrementally maintained tables: family by family, projecting the sorted
    log again gives what the transactions had left behind. */
module Refinement {
  import opened Wrappers
  import opened Domain
  import opened EventStore

  /** What the log remembers of the evidence table: a nil work order reads back as none. */
  function Normalised(rows: seq<EvidenceRow>): seq<EvidenceRow> {
    if rows == [] then []
    else
      var last := rows[|rows| - 1];
      Normalised(rows[..|rows| - 1]) + [if last.about == Some(NIL) then last.(about := None) else last]
  }

  lemma NormalisedSnoc(rows: seq<EvidenceRow>, row: EvidenceRow)
    ensures Normalised(rows + [row]) ==
            Normalised(rows) + [if row.about == Some(NIL) then row.(about := None) else row]
  {
    assert (rows + [row])[..|rows|] == rows;
  }

  /** The tables whose key every event carries are the projections of the sorted log. */
  ghost predicate Families(t: Tables, p: Replayed) {
    && t.leases == PutLeases(p.leases)
    && t.approvals == PutApprovals(p.approvals)
    && PutChallenges(p.challenges) == Some(t.challenges)
    && t.health == PutHealths(p.health)
    && t.effects == PutEffects(p.effects)
  }

  /** All live tables but the work orders are projections of the log, in log order. */
  ghost predicate Mirrors(t: Tables, p: Replayed) {
    && Families(t, p)
    && p.evidence == Normalised(t.evidence)
    && t.controls == PutControls(p.controls)
  }

  lemma ProjectKeepsFamilies(t: Tables, p: Replayed, r: Record)
    requires Families(t, p) && Project(t, r).Some?
    ensures Families(Project(t, r).value, ReplayEvent(p, EventOf(r)))
  {
    hide EventStore.PutLeases, EventStore.PutApprovals, EventStore.PutChallenges, EventStore.PutHealths,
         EventStore.PutEffects, EventStore.PutControls;
    match r {
      case PutLease(l) => PutLeasesSnoc(p.leases, l);
      case PutApproval(a) => PutApprovalsSnoc(p.approvals, a);
      case PutChallenge(c) => PutChallengesSnoc(p.challenges, c);
      case PutHealth(h) => PutHealthsSnoc(p.health, h);
      case PutEffect(e) => PutEffectsSnoc(p.effects, e);
      case _ =>
    }
  }

  lemma CommitKeepsFamilies(s: Store, r: Record)
    requires Families(s.tables, Replay(s.log))
    ensures var s' := Commit(s, r); Families(s'.tables, Replay(s'.log))
  {
    if Project(s.tables, r).Some? {
      ReplaySnoc(s.log, EventOf(r));
      ProjectKeepsFamilies(s.tables, Replay(s.log), r);
    }
  }

  lemma PutEvidenceKeepsMirrors(t: Tables, p: Replayed, r: Record)
    requires Mirrors(t, p) && r.PutEvidence?
    ensures Mirrors(Project(t, r).value, ReplayEvent(p, EventOf(r)))
  {
    hide EventStore.PutLeases, EventStore.PutApprovals, EventStore.PutChallenges, EventStore.PutHealths,
         EventStore.PutEffects, EventStore.PutControls, Normalised;
    NormalisedSnoc(t.evidence, EvidenceRow(r.about, r.evidence));
  }

  lemma PutControlKeepsMirrors(t: Tables, p: Replayed, r: Record)
    requires Mirrors(t, p) && r.PutControl?
    ensures Mirrors(Project(t, r).value, ReplayEvent(p, EventOf(r)))
  {
    hide EventStore.PutLeases, EventStore.PutApprovals, EventStore.PutChallenges, EventStore.PutHealths,
         EventStore.PutEffects, EventStore.PutControls, Normalised;
    PutControlsSnoc(p.controls, r.control);
  }

  lemma ProjectKeepsMirrors(t: Tables, p: Replayed, r: Record)
    requires Mirrors(t, p) && Project(t, r).Some?
    ensures Mirrors(Project(t, r).value, ReplayEvent(p, EventOf(r)))
  {
    hide EventStore.PutLeases, EventStore.PutApprovals, EventStore.PutChallenges, EventStore.PutHealths,
         EventStore.PutEffects, EventStore.PutControls, Normalised;
    if r.PutEvidence? {
      PutEvidenceKeepsMirrors(t, p, r);
    } else if r.PutControl? {
      PutControlKeepsMirrors(t, p, r);
    } else {
      ProjectKeepsFamilies(t, p, r);
    }
  }

  lemma CommitKeepsMirrors(s: Store, r: Record)
    requires Mirrors(s.tables, Replay(s.log))
    ensures var s' := Commit(s, r); Mirrors(s'.tables, Replay(s'.log))
  {
    if Project(s.tables, r).Some? {
      ReplaySnoc(s.log, EventOf(r));
      ProjectKeepsMirrors(s.tables, Replay(s.log), r);
    }
  }

  /** The store after a run of transactions from empty tables. */
  lemma {:induction false} RecordedStoresMirror(rs: seq<Record>)
    ensures var s := CommitAll(EMPTY_STORE, rs); Mirrors(s.tables, Replay(s.log))
  {
    if rs != [] {
      RecordedStoresMirror(rs[..|rs| - 1]);
      CommitKeepsMirrors(CommitAll(EMPTY_STORE, rs[..|rs| - 1]), rs[|rs| - 1]);
    }
  }

  /** Reprojection of any log that transactions wrote succeeds (no token hash clashes), keeps the
      log, and restores every family that is keyed as its events are. */
  lemma RebuildRefinesLive(rs: seq<Record>)
    ensures var s := CommitAll(EMPTY_STORE, rs);
            && Rebuilt(Replay(s.log)).Some?
            && Rebuild(s).log == s.log
            && Rebuild(s).tables.orders == Replay(s.log).orders
            && Rebuild(s).tables.leases == s.tables.leases
            && Rebuild(s).tables.approvals == s.tables.approvals
            && Rebuild(s).tables.challenges == s.tables.challenges
            && Rebuild(s).tables.evidence == Normalised(s.tables.evidence)
            && Rebuild(s).tables.health == s.tables.health
            && Rebuild(s).tables.effects == s.tables.effects
            && (Rebuild(s).tables.controls == s.tables.controls <==>
                  HighestKindsShow(s.tables.controls, Replay(s.log).controls))
            && Rebuild(Rebuild(s)) == Rebuild(s)
  {
    RecordedStoresMirror(rs);
    var rows := Replay(CommitAll(EMPTY_STORE, rs).log).controls;
    PutControlsAreCurrent(rows);
    ControlsAgree(PutControls(rows), rows);
  }

  /** The evidence table survives exactly when no row names the nil work order. */
  lemma {:induction false} EvidenceSurvivesExactly(rows: seq<EvidenceRow>)
    ensures |Normalised(rows)| == |rows|
    ensures Normalised(rows) == rows <==> forall i :: 0 <= i < |rows| ==> rows[i].about != Some(NIL)
  {
    if rows != [] {
      hide Normalised;
      var front, last := rows[..|rows| - 1], rows[|rows| - 1];
      assert rows == front + [last];
      EvidenceSurvivesExactly(front);
      NormalisedSnoc(front, last);
      if Normalised(rows) == rows {
        assert Normalised(rows)[..|front|] == Normalised(front) && rows[..|front|] == front;
        assert Normalised(rows)[|front|] == rows[|front|];
      }
    }
  }

  // ----- Work orders -----

  predicate IsSnapshot(e: Event, id: Id) {
    e.OrderLogged? && Replayable(e.name) && e.order.id == id
  }

  /** The position of the last replayable snapshot of a work order. */
  function LastSnapshot(log: seq<Event>, id: Id): (r: Option<nat>)
    ensures r.Some? ==> r.value < |log| && IsSnapshot(log[r.value], id)
    ensures r.Some? ==> forall i :: r.value < i < |log| ==> !IsSnapshot(log[i], id)
    ensures r.None? ==> forall i :: 0 <= i < |log| ==> !IsSnapshot(log[i], id)
  {
    if log == [] then None
    else if IsSnapshot(log[|log| - 1], id) then Some(|log| - 1)
    else LastSnapshot(log[..|log| - 1], id)
  }

  /** The evidence of a snapshot, followed by what later events add to it. */
  function Merged(evidence: seq<Evidence>, events: seq<Event>, id: Id): seq<Evidence> {
    if events == [] then evidence
    else
      var m := Merged(evidence, events[..|events| - 1], id);
      var e := events[|events| - 1];
      if e.EvidenceRecorded? && e.about == id && !HasUri(m, e.evidence.uri) then m + [e.evidence] else m
  }

  /** A rebuilt work order is its last `work_order.` snapshot with the evidence recorded after it. */
  lemma {:induction false} RebuiltOrderIsLastSnapshot(log: seq<Event>, id: Id)
    ensures var p := LastSnapshot(log, id);
            && (id in Replay(log).orders <==> p.Some?)
            && (p.Some? ==>
                  var o := log[p.value].order;
                  Replay(log).orders[id] == o.(evidence := Merged(o.evidence, log[p.value + 1..], id)))
  {
    hide HasUri;
    if log != [] {
      var n := |log| - 1;
      RebuiltOrderIsLastSnapshot(log[..n], id);
      var p := LastSnapshot(log, id);
      if p.Some? && p.value < n {
        assert log[p.value + 1..][..n - p.value - 1] == log[..n][p.value + 1..];
      }
    }
  }

  /** One event adds at most one piece of evidence at the end, and its uri is there afterwards. */
  lemma MergesOne(m: seq<Evidence>, e: Event, id: Id)
    ensures var news := e.EvidenceRecorded? && e.about == id && !HasUri(m, e.evidence.uri);
            var m' := if news then m + [e.evidence] else m;
            && (e.EvidenceRecorded? && e.about == id ==> HasUri(m', e.evidence.uri))
            && forall uri | HasUri(m, uri) :: HasUri(m', uri)
  {
    var news := e.EvidenceRecorded? && e.about == id && !HasUri(m, e.evidence.uri);
    var m' := if news then m + [e.evidence] else m;
    forall uri | HasUri(m, uri)
      ensures HasUri(m', uri)
    {
      var i :| 0 <= i < |m| && m[i].uri == uri;
      assert m'[i].uri == uri;
    }
    if news {
      assert m'[|m|].uri == e.evidence.uri;
    }
  }

  lemma {:induction false} MergedHasUris(evidence: seq<Evidence>, events: seq<Event>, id: Id)
    ensures var m := Merged(evidence, events, id);
            && evidence <= m
            && (forall j :: 0 <= j < |events| && events[j].EvidenceRecorded? && events[j].about == id
                  ==> HasUri(m, events[j].evidence.uri))
            && (forall k :: |evidence| <= k < |m| ==> EvidenceRecorded(id, m[k]) in events && !HasUri(m[..k], m[k].uri))
  {
    hide HasUri;
    if events != [] {
      var front := events[..|events| - 1];
      var m0 := Merged(evidence, front, id);
      var m := Merged(evidence, events, id);
      MergedHasUris(evidence, front, id);
      MergesOne(m0, events[|events| - 1], id);
      forall k | |evidence| <= k < |m|
        ensures EvidenceRecorded(id, m[k]) in events && !HasUri(m[..k], m[k].uri)
      {
        if k < |m0| {
          assert m[..k] == m0[..k];
          assert EvidenceRecorded(id, m0[k]) in front;
        } else {
          assert m[..k] == m0;
        }
      }
    }
  }

  /** What merging means: nothing of the snapshot is lost, every recorded uri is there afterwards,
      and whatever was added is recorded evidence with a uri not seen before it. */
  lemma MergedAddsNewUris(evidence: seq<Evidence>, events: seq<Event>, id: Id)
    ensures var m := Merged(evidence, events, id);
            && evidence <= m
            && (forall j | 0 <= j < |events| && events[j].EvidenceRecorded? && events[j].about == id ::
                  exists i | 0 <= i < |m| :: m[i].uri == events[j].evidence.uri)
            && (forall k | |evidence| <= k < |m| ::
                  EvidenceRecorded(id, m[k]) in events && forall i | 0 <= i < k :: m[i].uri != m[k].uri)
  {
    hide Merged;
    MergedHasUris(evidence, events, id);
    var m := Merged(evidence, events, id);
    forall k | |evidence| <= k < |m|
      ensures forall i | 0 <= i < k :: m[i].uri != m[k].uri
    {
      assert !HasUri(m[..k], m[k].uri);
      assert forall i | 0 <= i < k :: m[..k][i] == m[i];
    }
  }

  // ----- Control-plane records -----

  /** No id shows a record of an earlier kind, in rebuild order, than one it was used under. */
  predicate HighestKindsShow(controls: map<Id, ControlRow>, rows: seq<ControlRow>) {
    forall i :: 0 <= i < |rows| ==>
      rows[i].id in controls && Rank(rows[i].kind) <= Rank(controls[rows[i].id].kind)
  }

  lemma {:induction false} PutControlsAppend(a: seq<ControlRow>, b: seq<ControlRow>)
    ensures PutControls(a + b) == PutControls(a) + PutControls(b)
  {
    if b == [] {
      assert a + b == a;
    } else {
      assert (a + b)[..|a + b| - 1] == a + b[..|b| - 1];
      PutControlsAppend(a, b[..|b| - 1]);
    }
  }

  /** Every row's id is in the table, and the table's rows are rows. */
  lemma {:induction false} PutControlsKeys(rows: seq<ControlRow>)
    ensures forall i :: 0 <= i < |rows| ==> rows[i].id in PutControls(rows)
    ensures forall id :: id in PutControls(rows) ==> PutControls(rows)[id] in rows && PutControls(rows)[id].id == id
  {
    if rows != [] {
      PutControlsKeys(rows[..|rows| - 1]);
    }
  }

  /** `row` is the latest of the highest kind below `ranks` that `id` was used under. */
  ghost predicate HighestBelow(rows: seq<ControlRow>, ranks: nat, id: Id, row: ControlRow) {
    var r := Rank(row.kind);
    && r < ranks
    && Shown(rows, r, id) == Some(row)
    && forall q :: r < q < ranks ==> Shown(rows, q, id) == None
  }

  /** The latest record of an id under one kind. */
  function Shown(rows: seq<ControlRow>, rank: nat, id: Id): Option<ControlRow> {
    if rows == [] then None
    else
      var last := rows[|rows| - 1];
      if Rank(last.kind) == rank && last.id == id then Some(last) else Shown(rows[..|rows| - 1], rank, id)
  }

  lemma {:induction false} ShownIsARow(rows: seq<ControlRow>, rank: nat, id: Id)
    ensures var r := Shown(rows, rank, id);
            if r.Some? then Rank(r.value.kind) == rank && r.value.id == id && r.value in rows
            else forall i :: 0 <= i < |rows| && Rank(rows[i].kind) == rank ==> rows[i].id != id
  {
    if rows != [] {
      ShownIsARow(rows[..|rows| - 1], rank, id);
    }
  }

  lemma {:induction false} ShownIsPut(rows: seq<ControlRow>, rank: nat, id: Id)
    ensures var t := PutControls(OfRank(rows, rank));
            Shown(rows, rank, id) == if id in t then Some(t[id]) else None
  {
    if rows != [] {
      var n := |rows| - 1;
      ShownIsPut(rows[..n], rank, id);
      if Rank(rows[n].kind) == rank {
        PutControlsSnoc(OfRank(rows[..n], rank), rows[n]);
      } else {
        assert OfRank(rows, rank) == OfRank(rows[..n], rank);
      }
    }
  }

  /** The latest row of an id is also the latest row within its own kind. */
  lemma {:induction false} LatestWithinItsKind(rows: seq<ControlRow>, id: Id)
    requires id in PutControls(rows)
    ensures var row := PutControls(rows)[id]; Shown(rows, Rank(row.kind), id) == Some(row)
  {
    if rows[|rows| - 1].id != id {
      LatestWithinItsKind(rows[..|rows| - 1], id);
    }
  }

  /** `highest` is what the kinds below `ranks` show for `id`, a later kind before an earlier one. */
  ghost predicate ShowsHighest(rows: seq<ControlRow>, ranks: nat, id: Id, highest: Option<ControlRow>) {
    if highest.Some? then HighestBelow(rows, ranks, id, highest.value)
    else forall q :: 0 <= q < ranks ==> Shown(rows, q, id) == None
  }

  lemma HighestExtends(rows: seq<ControlRow>, ranks: nat, id: Id, highest: Option<ControlRow>)
    requires ShowsHighest(rows, ranks, id, highest)
    ensures var s := Shown(rows, ranks, id); ShowsHighest(rows, ranks + 1, id, if s.Some? then s else highest)
  {
    ShownIsARow(rows, ranks, id);
  }

  function Lookup<V>(t: map<Id, V>, id: Id): Option<V> {
    if id in t then Some(t[id]) else None
  }

  lemma NothingGrouped(rows: seq<ControlRow>, id: Id)
    ensures ShowsHighest(rows, 0, id, Lookup(PutControls(Grouped(rows, 0)), id))
  {
  }

  /** After grouping by kind, an id shows the latest row of the highest kind it was used under. */
  lemma {:induction false} GroupedShowsHighest(rows: seq<ControlRow>, ranks: nat, id: Id)
    ensures ShowsHighest(rows, ranks, id, Lookup(PutControls(Grouped(rows, ranks)), id))
  {
    hide PutControls, OfRank, Shown, ShowsHighest;
    if ranks == 0 {
      NothingGrouped(rows, id);
    }
    if ranks > 0 {
      GroupedShowsHighest(rows, ranks - 1, id);
      HighestExtends(rows, ranks - 1, id, Lookup(PutControls(Grouped(rows, ranks - 1)), id));
      PutControlsAppend(Grouped(rows, ranks - 1), OfRank(rows, ranks - 1));
      ShownIsPut(rows, ranks - 1, id);
    }
  }

  /** A row that is the latest of its own kind is the highest kind's row exactly when no row of the
      id is of a higher kind. */
  lemma HighestIsCurrent(rows: seq<ControlRow>, ranks: nat, id: Id, highest: ControlRow, current: ControlRow)
    requires ranks >= RANKS && HighestBelow(rows, ranks, id, highest)
    requires Shown(rows, Rank(current.kind), id) == Some(current)
    ensures highest == current <==>
            forall i :: 0 <= i < |rows| && rows[i].id == id ==> Rank(rows[i].kind) <= Rank(current.kind)
  {
    ShownIsARow(rows, Rank(highest.kind), id);
    forall i | 0 <= i < |rows| && rows[i].id == id
      ensures Rank(rows[i].kind) <= Rank(highest.kind)
    {
      ShownIsARow(rows, Rank(rows[i].kind), id);
    }
    var i :| 0 <= i < |rows| && rows[i] == highest;
    assert Rank(rows[i].kind) <= Rank(current.kind) ==> highest == current;
  }

  /** A table that shows, for each id that was used, the latest record of one of its kinds: what
      upserts and rebuilds, in any order, leave behind. */
  ghost predicate CurrentOfKind(controls: map<Id, ControlRow>, rows: seq<ControlRow>) {
    && (forall i :: 0 <= i < |rows| ==> rows[i].id in controls)
    && forall id | id in controls :: Shown(rows, Rank(controls[id].kind), id) == Some(controls[id])
  }

  lemma ControlAgrees(controls: map<Id, ControlRow>, rows: seq<ControlRow>, id: Id)
    requires CurrentOfKind(controls, rows)
    ensures var rebuilt := PutControls(Grouped(rows, RANKS));
            && (id in rebuilt <==> id in controls)
            && (id in controls ==>
                  (rebuilt[id] == controls[id] <==>
                   forall i :: 0 <= i < |rows| && rows[i].id == id ==> Rank(rows[i].kind) <= Rank(controls[id].kind)))
  {
    hide PutControls, Grouped;
    var rebuilt := PutControls(Grouped(rows, RANKS));
    GroupedShowsHighest(rows, RANKS, id);
    if id in controls {
      ShownIsARow(rows, Rank(controls[id].kind), id);
      if id in rebuilt {
        HighestIsCurrent(rows, RANKS, id, rebuilt[id], controls[id]);
      }
    } else if id in rebuilt {
      ShownIsARow(rows, Rank(rebuilt[id].kind), id);
    }
  }

  /** The shared table survives a rebuild exactly when no id shows a record of an earlier kind than
      one it was used under: in particular when no id is used under two kinds. */
  lemma ControlsAgree(controls: map<Id, ControlRow>, rows: seq<ControlRow>)
    requires CurrentOfKind(controls, rows)
    ensures PutControls(Grouped(rows, RANKS)).Keys == controls.Keys
    ensures PutControls(Grouped(rows, RANKS)) == controls <==> HighestKindsShow(controls, rows)
  {
    hide PutControls, Grouped;
    var rebuilt := PutControls(Grouped(rows, RANKS));
    forall id {
      ControlAgrees(controls, rows, id);
    }
    assert rebuilt.Keys == controls.Keys;
    if rebuilt != controls {
      var id :| id in controls && rebuilt[id] != controls[id];
    }
  }

  lemma PutControlsAreCurrent(rows: seq<ControlRow>)
    ensures CurrentOfKind(PutControls(rows), rows)
  {
    hide PutControls, Shown;
    PutControlsKeys(rows);
    forall id | id in PutControls(rows) {
      LatestWithinItsKind(rows, id);
    }
  }

  lemma GroupedControlsAreCurrent(rows: seq<ControlRow>)
    ensures CurrentOfKind(PutControls(Grouped(rows, RANKS)), rows)
  {
    hide PutControls, Shown, Grouped;
    PutControlsAreCurrent(rows);
    forall id
      ensures id in PutControls(Grouped(rows, RANKS)) <==> id in PutControls(rows)
    {
      ControlAgrees(PutControls(rows), rows, id);
    }
    forall id | id in PutControls(Grouped(rows, RANKS)) {
      GroupedShowsHighest(rows, RANKS, id);
    }
  }

  function OfKind(rows: seq<ControlRow>, kind: ControlKind): seq<ControlRow> {
    if rows == [] then []
    else OfKind(rows[..|rows| - 1], kind) + if rows[|rows| - 1].kind == kind then [rows[|rows| - 1]] else []
  }

  lemma {:induction false} OfRankIsOfKind(rows: seq<ControlRow>, kind: ControlKind)
    ensures OfRank(rows, Rank(kind)) == OfKind(rows, kind)
  {
    if rows != [] {
      OfRankIsOfKind(rows[..|rows| - 1], kind);
    }
  }

  /** A rebuild projects the kinds in this order, so where an id was used under two of them the later
      kind in this list is shown. */
  lemma KindsInRebuildOrder(rows: seq<ControlRow>)
    ensures Grouped(rows, RANKS) ==
            OfKind(rows, VoiceSession) + OfKind(rows, AttentionPacket) + OfKind(rows, MemoryRecord) +
            OfKind(rows, InventoryCard) + OfKind(rows, PromotionDecision) + OfKind(rows, IncidentRecord)
  {
    hide OfRank, OfKind;
    OfRankIsOfKind(rows, VoiceSession);
    OfRankIsOfKind(rows, AttentionPacket);
    OfRankIsOfKind(rows, MemoryRecord);
    OfRankIsOfKind(rows, InventoryCard);
    OfRankIsOfKind(rows, PromotionDecision);
    OfRankIsOfKind(rows, IncidentRecord);
    SixRanks(rows);
    assert [] + OfRank(rows, 0) == OfRank(rows, 0);
  }

  lemma SixRanks(rows: seq<ControlRow>)
    ensures Grouped(rows, RANKS) ==
            [] + OfRank(rows, 0) + OfRank(rows, 1) + OfRank(rows, 2) + OfRank(rows, 3) + OfRank(rows, 4) + OfRank(rows, 5)
  {
    hide OfRank;
    assert Grouped(rows, 1) == Grouped(rows, 0) + OfRank(rows, 0) && Grouped(rows, 0) == [];
    assert Grouped(rows, 2) == Grouped(rows, 1) + OfRank(rows, 1);
    assert Grouped(rows, 3) == Grouped(rows, 2) + OfRank(rows, 2);
    assert Grouped(rows, 4) == Grouped(rows, 3) + OfRank(rows, 3);
    assert Grouped(rows, 5) == Grouped(rows, 4) + OfRank(rows, 4);
  }

  // ----- One transaction, table by table -----

  /** A committed record adds one event at the end of the log and changes one row of one table: the one
      under its own key. Only a challenge can be refused, for a token hash that another row has. */
  lemma CommittedRecord(s: Store, r: Record)
    ensures var s' := Commit(s, r); var t, t' := s.tables, s'.tables;
            match r
            case PutOrder(name, o) =>
              s' == Store(s.log + [OrderLogged(name, o)], t.(orders := t.orders[o.id := o]))
            case PutLease(l) =>
              s' == Store(s.log + [LeaseGranted(l)], t.(leases := t.leases[Key(l.order, l.holder) := l]))
            case PutApproval(a) =>
              s' == Store(s.log + [ApprovalRecorded(a)], t.(approvals := t.approvals[Key(a.order, a.approver) := a]))
            case PutChallenge(c) =>
              if exists i | i in t.challenges :: i != c.id && t.challenges[i].tokenHash == c.tokenHash then s' == s
              else
                && s'.log == s.log + [ChallengeRecorded(c)]
                && t' == t.(challenges := t'.challenges)
                && t'.challenges.Keys == t.challenges.Keys + {c.id}
                && t'.challenges[c.id].data == c
                && t'.challenges[c.id].tokenHash == (if c.id in t.challenges then t.challenges[c.id].tokenHash else c.tokenHash)
                && forall i | i in t.challenges && i != c.id :: t'.challenges[i] == t.challenges[i]
            case PutEvidence(about, e) =>
              s' == Store(s.log + [EvidenceRecorded(if about.Some? then about.value else 0, e)],
                          t.(evidence := t.evidence + [EvidenceRow(about, e)]))
            case PutHealth(h) => s' == Store(s.log + [HealthReported(h)], t.(health := t.health[h.name := h]))
            case PutEffect(e) => s' == Store(s.log + [EffectRecorded(e)], t.(effects := t.effects[e.id := e]))
            case PutControl(c) => s' == Store(s.log + [ControlRecorded(c)], t.(controls := t.controls[c.id := c]))
  {
  }

  // ----- Rebuilding early or late -----

  /** Records whose projection does not depend on when the last rebuild was. */
  predicate Commutes(r: Record) {
    match r
    case PutOrder(name, _) => Replayable(name)
    case PutEvidence(_, _) => false
    case PutControl(_) => false
    case _ => true
  }

  lemma RebuiltForm(s: Store)
    requires Families(s.tables, Replay(s.log))
    ensures var p := Replay(s.log);
            Rebuilt(p) == Some(s.tables.(orders := p.orders, evidence := p.evidence,
                                         controls := PutControls(Grouped(p.controls, RANKS))))
  {
  }

  /** The sorted log before and after a commuting record differ in that record's family only. */
  lemma CommutesWithRebuild(t: Tables, controls: map<Id, ControlRow>, p: Replayed, r: Record)
    requires Commutes(r)
    ensures var rebuilt := t.(orders := p.orders, evidence := p.evidence, controls := controls);
            var p' := ReplayEvent(p, EventOf(r));
            && p'.controls == p.controls
            && (Project(t, r).None? <==> Project(rebuilt, r).None?)
            && (Project(t, r).Some? ==>
                  Project(rebuilt, r).value ==
                  Project(t, r).value.(orders := p'.orders, evidence := p'.evidence, controls := controls))
  {
  }

  /** Rebuilding before or after a commuting record makes no difference, in any store whose keyed
      tables are the projections of its log: one never rebuilt or one rebuilt many times. */
  lemma RebuildCommutes(s: Store, r: Record)
    requires Families(s.tables, Replay(s.log)) && Commutes(r)
    ensures Rebuild(Commit(s, r)) == Commit(Rebuild(s), r)
  {
    var p := Replay(s.log);
    RebuiltForm(s);
    CommutesWithRebuild(s.tables, PutControls(Grouped(p.controls, RANKS)), p, r);
    if Project(s.tables, r).Some? {
      CommitKeepsFamilies(s, r);
      RebuiltForm(Commit(s, r));
      ReplaySnoc(s.log, EventOf(r));
    }
  }

  lemma RebuildKeepsFamilies(s: Store)
    requires Families(s.tables, Replay(s.log))
    ensures Rebuilt(Replay(s.log)).Some?
    ensures Rebuild(s).log == s.log && Families(Rebuild(s).tables, Replay(s.log))
    ensures Rebuild(s).tables.orders == Replay(s.log).orders
    ensures Rebuild(s).tables.leases == s.tables.leases
    ensures Rebuild(s).tables.approvals == s.tables.approvals
    ensures Rebuild(s).tables.challenges == s.tables.challenges
    ensures Rebuild(s).tables.health == s.tables.health
    ensures Rebuild(s).tables.effects == s.tables.effects
  {
    RebuiltForm(s);
  }

  // ----- The tables that are not keyed as their events, in stores rebuilt at any time -----

  /** Evidence and control-plane tables as upserts and rebuilds, in any order, leave them. */
  ghost predicate Current(t: Tables, p: Replayed) {
    p.evidence == Normalised(t.evidence) && CurrentOfKind(t.controls, p.controls)
  }

  lemma PutControlKeepsCurrent(controls: map<Id, ControlRow>, rows: seq<ControlRow>, c: ControlRow)
    requires CurrentOfKind(controls, rows)
    ensures CurrentOfKind(controls[c.id := c], rows + [c])
  {
    assert (rows + [c])[..|rows|] == rows;
  }

  lemma CommitKeepsCurrent(s: Store, r: Record)
    requires Current(s.tables, Replay(s.log))
    ensures var s' := Commit(s, r); Current(s'.tables, Replay(s'.log))
  {
    hide Normalised, CurrentOfKind, Replay;
    ReplaySnoc(s.log, EventOf(r));
    match r {
      case PutEvidence(about, e) => NormalisedSnoc(s.tables.evidence, EvidenceRow(about, e));
      case PutControl(c) => PutControlKeepsCurrent(s.tables.controls, Replay(s.log).controls, c);
      case _ =>
    }
  }

  lemma {:induction false} NormalisedTwice(rows: seq<EvidenceRow>)
    ensures Normalised(Normalised(rows)) == Normalised(rows)
  {
    if rows != [] {
      var front, last := rows[..|rows| - 1], Normalised(rows)[|Normalised(rows)| - 1];
      NormalisedTwice(front);
      NormalisedSnoc(Normalised(front), last);
    }
  }

  /** A rebuild of such a store keeps the evidence but for nil ids, and the control-plane table
      exactly when every id shows the highest kind it was used under. */
  lemma RebuildKeepsCurrent(s: Store)
    requires Families(s.tables, Replay(s.log)) && Current(s.tables, Replay(s.log))
    ensures var t, t' := s.tables, Rebuild(s).tables;
            && Current(t', Replay(s.log))
            && t'.evidence == Normalised(t.evidence)
            && t'.controls.Keys == t.controls.Keys
            && (t'.controls == t.controls <==> HighestKindsShow(t.controls, Replay(s.log).controls))
  {
    hide Normalised, CurrentOfKind, Replay, PutControls, Grouped, HighestKindsShow, Families;
    var p := Replay(s.log);
    RebuiltForm(s);
    NormalisedTwice(s.tables.evidence);
    GroupedControlsAreCurrent(p.controls);
    ControlsAgree(s.tables.controls, p.controls);
  }
}
