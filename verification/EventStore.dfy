/** The event log and its projection tables, as values.

    Every write is one `Record`: it appends one event to the log and upserts one table, in one
    transaction. A rebuild forgets the tables and projects the log again, family by family. */
module EventStore {
  import opened Wrappers
  import opened Domain
  import Json

  // ----- Rows and tables -----

  datatype Key = Key(order: Id, who: string)

  /** The token hash is a column of its own: an upsert of the same id never changes it. */
  datatype ChallengeRow = ChallengeRow(tokenHash: string, data: ChallengeData)

  datatype EvidenceRow = EvidenceRow(about: Option<Id>, evidence: Evidence)

  datatype HealthLevel = Nominal | Watch | Degraded | Blocked
  datatype AdapterHealth = AdapterHealth(
    name: string, health: HealthLevel, endpoint: Option<string>, detail: string, checkedAt: Time)

  datatype EffectStatus = EffectPending | EffectApplied | EffectFailed | EffectReplayed
  datatype Effect = Effect(
    id: Id, order: Id, holder: string, kind: string, status: EffectStatus, uri: Option<string>, recordedAt: Time)

  /** The six kinds of control-plane record share one table, keyed by id alone. */
  datatype ControlKind =
    | VoiceSession | AttentionPacket | MemoryRecord | InventoryCard | PromotionDecision | IncidentRecord
  datatype ControlRow = ControlRow(kind: ControlKind, id: Id, body: Json.Value)

  datatype Tables = Tables(
    orders: map<Id, OrderData>,
    leases: map<Key, LeaseData>,
    approvals: map<Key, ApprovalData>,
    challenges: map<Id, ChallengeRow>,
    evidence: seq<EvidenceRow>,
    health: map<string, AdapterHealth>,
    effects: map<Id, Effect>,
    controls: map<Id, ControlRow>)

  const EMPTY_TABLES := Tables(map[], map[], map[], map[], [], map[], map[], map[])

  // ----- Events and the transactions that write them -----

  /** The names under which work-order snapshots are logged. */
  datatype OrderEvent =
    | OrderSubmitted | OrderAwaitingApproval | OrderApprovalDecided
    | MicrotaskLeased | MicrotaskCompleted | MicrotaskFailed

  /** Replay reads the names that start with `work_order.` and passes over `microtask.`. */
  predicate Replayable(name: OrderEvent) {
    name.OrderSubmitted? || name.OrderAwaitingApproval? || name.OrderApprovalDecided?
  }

  datatype Event =
    | OrderLogged(name: OrderEvent, order: OrderData)
    | LeaseGranted(lease: LeaseData)
    | ApprovalRecorded(approval: ApprovalData)
    | ChallengeRecorded(challenge: ChallengeData)
    | EvidenceRecorded(about: Id, evidence: Evidence)
    | HealthReported(health: AdapterHealth)
    | EffectRecorded(effect: Effect)
    | ControlRecorded(control: ControlRow)

  datatype Record =
    | PutOrder(name: OrderEvent, order: OrderData)
    | PutLease(lease: LeaseData)
    | PutApproval(approval: ApprovalData)
    | PutChallenge(challenge: ChallengeData)
    | PutEvidence(about: Option<Id>, evidence: Evidence)
    | PutHealth(health: AdapterHealth)
    | PutEffect(effect: Effect)
    | PutControl(control: ControlRow)

  function EventOf(r: Record): Event {
    match r
    case PutOrder(name, o) => OrderLogged(name, o)
    case PutLease(l) => LeaseGranted(l)
    case PutApproval(a) => ApprovalRecorded(a)
    case PutChallenge(c) => ChallengeRecorded(c)
    case PutEvidence(about, e) => EvidenceRecorded(if about.Some? then about.value else NIL, e)
    case PutHealth(h) => HealthReported(h)
    case PutEffect(e) => EffectRecorded(e)
    case PutControl(c) => ControlRecorded(c)
  }

  // ----- The upserts -----

  function UpsertLease(t: map<Key, LeaseData>, l: LeaseData): map<Key, LeaseData> {
    t[Key(l.order, l.holder) := l]
  }

  function UpsertApproval(t: map<Key, ApprovalData>, a: ApprovalData): map<Key, ApprovalData> {
    t[Key(a.order, a.approver) := a]
  }

  /** Another challenge already carries this token hash, which the table declares unique. */
  predicate TokenClash(t: map<Id, ChallengeRow>, c: ChallengeData) {
    exists id | id in t :: id != c.id && t[id].tokenHash == c.tokenHash
  }

  ghost predicate UniqueHashes(t: map<Id, ChallengeRow>) {
    forall i, j | i in t && j in t && t[i].tokenHash == t[j].tokenHash :: i == j
  }

  function UpsertChallenge(t: map<Id, ChallengeRow>, c: ChallengeData): Option<map<Id, ChallengeRow>> {
    if TokenClash(t, c) then None
    else Some(t[c.id := ChallengeRow(if c.id in t then t[c.id].tokenHash else c.tokenHash, c)])
  }

  /** The challenge a token hash leads to. */
  ghost function FindByHash(rows: map<Id, ChallengeRow>, hash: string): (r: Option<ChallengeData>)
    ensures r.Some? ==> exists id | id in rows :: rows[id].tokenHash == hash && rows[id].data == r.value
    ensures r.None? ==> forall id | id in rows :: rows[id].tokenHash != hash
  {
    if exists id | id in rows :: rows[id].tokenHash == hash then
      var id :| id in rows && rows[id].tokenHash == hash;
      Some(rows[id].data)
    else None
  }

  /** The projection of one record; it fails only on the unique token hash. */
  function Project(t: Tables, r: Record): Option<Tables> {
    match r
    case PutOrder(_, o) => Some(t.(orders := t.orders[o.id := o]))
    case PutLease(l) => Some(t.(leases := UpsertLease(t.leases, l)))
    case PutApproval(a) => Some(t.(approvals := UpsertApproval(t.approvals, a)))
    case PutChallenge(c) =>
      var rows := UpsertChallenge(t.challenges, c);
      if rows.None? then None else Some(t.(challenges := rows.value))
    case PutEvidence(about, e) => Some(t.(evidence := t.evidence + [EvidenceRow(about, e)]))
    case PutHealth(h) => Some(t.(health := t.health[h.name := h]))
    case PutEffect(e) => Some(t.(effects := t.effects[e.id := e]))
    case PutControl(c) => Some(t.(controls := t.controls[c.id := c]))
  }

  // ----- The store -----

  /** `lastEvent` and the number of work orders rebuilt, noted after each rebuild. */
  datatype Checkpoint = Checkpoint(lastEvent: nat, rebuiltOrders: nat)

  datatype Store = Store(log: seq<Event>, tables: Tables)

  const EMPTY_STORE := Store([], EMPTY_TABLES)

  /** One transaction: the event and the upsert, or neither. */
  function Commit(s: Store, r: Record): Store {
    match Project(s.tables, r)
    case Some(t) => Store(s.log + [EventOf(r)], t)
    case None => s
  }

  /** Transactions one after another. */
  function CommitAll(s: Store, rs: seq<Record>): Store {
    if rs == [] then s else Commit(CommitAll(s, rs[..|rs| - 1]), rs[|rs| - 1])
  }

  // ----- Replay -----

  /** The families the log is sorted into before they are projected again. */
  datatype Replayed = Replayed(
    orders: map<Id, OrderData>,
    leases: seq<LeaseData>,
    approvals: seq<ApprovalData>,
    challenges: seq<ChallengeData>,
    evidence: seq<EvidenceRow>,
    health: seq<AdapterHealth>,
    effects: seq<Effect>,
    controls: seq<ControlRow>)

  const EMPTY_REPLAY := Replayed(map[], [], [], [], [], [], [], [])

  predicate HasUri(evidence: seq<Evidence>, uri: string) {
    exists i | 0 <= i < |evidence| :: evidence[i].uri == uri
  }

  function WithEvidence(o: OrderData, e: Evidence): OrderData {
    if HasUri(o.evidence, e.uri) then o else o.(evidence := o.evidence + [e])
  }

  /** Sorting one event: evidence also goes into the work order it is about, if its uri is new there. */
  function ReplayEvent(p: Replayed, e: Event): Replayed {
    match e
    case OrderLogged(name, o) => if Replayable(name) then p.(orders := p.orders[o.id := o]) else p
    case LeaseGranted(l) => p.(leases := p.leases + [l])
    case ApprovalRecorded(a) => p.(approvals := p.approvals + [a])
    case ChallengeRecorded(c) => p.(challenges := p.challenges + [c])
    case EvidenceRecorded(about, ev) =>
      var row := EvidenceRow(if about == NIL then None else Some(about), ev);
      p.(evidence := p.evidence + [row],
         orders := if about in p.orders then p.orders[about := WithEvidence(p.orders[about], ev)] else p.orders)
    case HealthReported(h) => p.(health := p.health + [h])
    case EffectRecorded(ef) => p.(effects := p.effects + [ef])
    case ControlRecorded(c) => p.(controls := p.controls + [c])
  }

  function Replay(log: seq<Event>): Replayed {
    if log == [] then EMPTY_REPLAY else ReplayEvent(Replay(log[..|log| - 1]), log[|log| - 1])
  }

  lemma ReplaySnoc(log: seq<Event>, e: Event)
    ensures Replay(log + [e]) == ReplayEvent(Replay(log), e)
  {
    assert (log + [e])[..|log|] == log;
  }

  // ----- Projecting the families again -----

  function PutLeases(ls: seq<LeaseData>): map<Key, LeaseData> {
    if ls == [] then map[] else UpsertLease(PutLeases(ls[..|ls| - 1]), ls[|ls| - 1])
  }

  function PutApprovals(rows: seq<ApprovalData>): map<Key, ApprovalData> {
    if rows == [] then map[] else UpsertApproval(PutApprovals(rows[..|rows| - 1]), rows[|rows| - 1])
  }

  function PutChallenges(cs: seq<ChallengeData>): Option<map<Id, ChallengeRow>> {
    if cs == [] then Some(map[])
    else
      match PutChallenges(cs[..|cs| - 1])
      case Some(t) => UpsertChallenge(t, cs[|cs| - 1])
      case None => None
  }

  function PutHealths(hs: seq<AdapterHealth>): map<string, AdapterHealth> {
    if hs == [] then map[] else PutHealths(hs[..|hs| - 1])[hs[|hs| - 1].name := hs[|hs| - 1]]
  }

  function PutEffects(es: seq<Effect>): map<Id, Effect> {
    if es == [] then map[] else PutEffects(es[..|es| - 1])[es[|es| - 1].id := es[|es| - 1]]
  }

  function PutControls(rows: seq<ControlRow>): map<Id, ControlRow> {
    if rows == [] then map[] else PutControls(rows[..|rows| - 1])[rows[|rows| - 1].id := rows[|rows| - 1]]
  }

  lemma PutLeasesSnoc(ls: seq<LeaseData>, x: LeaseData)
    ensures PutLeases(ls + [x]) == UpsertLease(PutLeases(ls), x)
  {
    assert (ls + [x])[..|ls|] == ls;
  }

  lemma PutApprovalsSnoc(rows: seq<ApprovalData>, x: ApprovalData)
    ensures PutApprovals(rows + [x]) == UpsertApproval(PutApprovals(rows), x)
  {
    assert (rows + [x])[..|rows|] == rows;
  }

  lemma PutHealthsSnoc(hs: seq<AdapterHealth>, x: AdapterHealth)
    ensures PutHealths(hs + [x]) == PutHealths(hs)[x.name := x]
  {
    assert (hs + [x])[..|hs|] == hs;
  }

  lemma PutEffectsSnoc(es: seq<Effect>, x: Effect)
    ensures PutEffects(es + [x]) == PutEffects(es)[x.id := x]
  {
    assert (es + [x])[..|es|] == es;
  }

  lemma PutControlsSnoc(rows: seq<ControlRow>, x: ControlRow)
    ensures PutControls(rows + [x]) == PutControls(rows)[x.id := x]
  {
    assert (rows + [x])[..|rows|] == rows;
  }

  lemma PutChallengesSnoc(cs: seq<ChallengeData>, x: ChallengeData)
    ensures PutChallenges(cs + [x]) ==
            match PutChallenges(cs) { case Some(t) => UpsertChallenge(t, x) case None => None }
  {
    assert (cs + [x])[..|cs|] == cs;
  }

  /** The order in which a rebuild projects the six kinds of control-plane record. */
  function Rank(k: ControlKind): nat {
    match k
    case VoiceSession => 0
    case AttentionPacket => 1
    case MemoryRecord => 2
    case InventoryCard => 3
    case PromotionDecision => 4
    case IncidentRecord => 5
  }

  const RANKS: nat := 6

  function OfRank(rows: seq<ControlRow>, rank: nat): seq<ControlRow> {
    if rows == [] then []
    else
      OfRank(rows[..|rows| - 1], rank) +
      (if Rank(rows[|rows| - 1].kind) == rank then [rows[|rows| - 1]] else [])
  }

  /** All records of the first `ranks` kinds, kind by kind. */
  function Grouped(rows: seq<ControlRow>, ranks: nat): seq<ControlRow> {
    if ranks == 0 then [] else Grouped(rows, ranks - 1) + OfRank(rows, ranks - 1)
  }

  /** The tables a rebuild makes of a sorted log; nothing if a token hash clashes. */
  function Rebuilt(p: Replayed): Option<Tables> {
    match PutChallenges(p.challenges)
    case None => None
    case Some(challenges) =>
      Some(Tables(p.orders, PutLeases(p.leases), PutApprovals(p.approvals), challenges, p.evidence,
                  PutHealths(p.health), PutEffects(p.effects), PutControls(Grouped(p.controls, RANKS))))
  }

  /** A rebuild keeps the log; if it fails it keeps the tables too. */
  function Rebuild(s: Store): Store {
    match Rebuilt(Replay(s.log))
    case Some(t) => Store(s.log, t)
    case None => s
  }

  // ----- Reading the log -----

  /** Events have the ids 1, 2, 3, ... in log order. */
  datatype StoredEvent = StoredEvent(id: nat, event: Event)

  function StoredAt(log: seq<Event>, i: nat): StoredEvent
    requires i < |log|
  {
    StoredEvent(i + 1, log[i])
  }

  /** The events with an id above `after` among the first `upto`, in id order. */
  function EventsAfter(log: seq<Event>, after: int, upto: nat): seq<StoredEvent>
    requires upto <= |log|
  {
    if upto == 0 then []
    else
      EventsAfter(log, after, upto - 1) + (if upto > after then [StoredAt(log, upto - 1)] else [])
  }
}
