/** The `/events` route: a subscriber keeps the id of the last event it was sent and asks the store
    for what comes after it, once a tick, while other callers append to the log. */
module EventStream {
  import opened Wrappers
  import opened EventStore
  import opened Persistence

  /** How one tick ends: the read may fail, and so may the encoding of the batch that was read. */
  datatype Outcome = Delivered | ReadFailed | EncodeFailed

  datatype Action = Append(event: Event) | Tick(outcome: Outcome)

  /** `sent` is the concatenation of all batches so far, `lost` how many events no batch carried
      although the cursor passed them. */
  datatype Stream = Stream(log: seq<Event>, after: int, sent: seq<StoredEvent>, lost: nat)

  function Advanced(after: int, batch: seq<StoredEvent>): int {
    if batch == [] then after else batch[|batch| - 1].id
  }

  function Act(s: Stream, a: Action): Stream {
    match a
    case Append(e) => s.(log := s.log + [e])
    case Tick(outcome) =>
      var batch := if outcome.ReadFailed? then [] else EventsAfter(s.log, s.after, |s.log|);
      var s' := s.(after := Advanced(s.after, batch));
      if outcome.EncodeFailed? then s'.(lost := s.lost + |batch|) else s'.(sent := s.sent + batch)
  }

  /** A subscriber that starts after `start` when the log holds `log`. */
  function RunFrom(log: seq<Event>, start: int, actions: seq<Action>): Stream {
    if actions == [] then Stream(log, start, [], 0)
    else Act(RunFrom(log, start, actions[..|actions| - 1]), actions[|actions| - 1])
  }

  function AtLeastZero(n: int): nat {
    if n < 0 then 0 else n
  }

  /** What `EventsAfter` reads: the stretch of the log from the cursor on. */
  lemma {:induction false} EventsAfterIsAStretch(log: seq<Event>, after: int, upto: nat)
    requires upto <= |log|
    ensures var base, es := AtLeastZero(after), EventsAfter(log, after, upto);
            && |es| == AtLeastZero(upto - base)
            && forall i | 0 <= i < |es| :: base + i < |log| && es[i] == StoredAt(log, base + i)
  {
    if upto > 0 {
      EventsAfterIsAStretch(log, after, upto - 1);
    }
  }

  /** How many events lie between the starting cursor and the current one. */
  function Passed(s: Stream, start: int): nat {
    AtLeastZero(s.after - AtLeastZero(start))
  }

  ghost predicate Tracks(s: Stream, start: int) {
    && s.after >= start && (s.after == start || AtLeastZero(start) < s.after <= |s.log|)
    && |s.sent| + s.lost == Passed(s, start)
    && (s.lost == 0 ==>
          forall i | 0 <= i < |s.sent| ::
            AtLeastZero(start) + i < |s.log| && s.sent[i] == StoredAt(s.log, AtLeastZero(start) + i))
  }

  lemma ActKeepsTracks(s: Stream, start: int, a: Action)
    requires Tracks(s, start)
    ensures Tracks(Act(s, a), start)
    ensures a == Tick(Delivered) ==> AtLeastZero(Act(s, a).after) >= |s.log|
  {
    hide EventStore.EventsAfter;
    EventsAfterIsAStretch(s.log, s.after, |s.log|);
  }

  lemma {:induction false} RunTracks(log: seq<Event>, start: int, actions: seq<Action>)
    ensures Tracks(RunFrom(log, start, actions), start)
  {
    if actions != [] {
      RunTracks(log, start, actions[..|actions| - 1]);
      ActKeepsTracks(RunFrom(log, start, actions[..|actions| - 1]), start, actions[|actions| - 1]);
    }
  }

  /** Nothing is outstanding: the cursor has reached the end of the log. */
  predicate CaughtUp(s: Stream) {
    AtLeastZero(s.after) >= |s.log|
  }

  /** Every tick whose batch could not be encoded came when nothing was outstanding. */
  predicate EncodeFailuresAreIdle(log: seq<Event>, start: int, actions: seq<Action>) {
    forall i | 0 <= i < |actions| && actions[i] == Tick(EncodeFailed) :: CaughtUp(RunFrom(log, start, actions[..i]))
  }

  lemma ActLoses(s: Stream, a: Action)
    ensures Act(s, a).lost == 0 <==> s.lost == 0 && (a == Tick(EncodeFailed) ==> CaughtUp(s))
  {
    hide EventStore.EventsAfter;
    EventsAfterIsAStretch(s.log, s.after, |s.log|);
  }

  lemma {:induction false} LostExactly(log: seq<Event>, start: int, actions: seq<Action>)
    ensures RunFrom(log, start, actions).lost == 0 <==> EncodeFailuresAreIdle(log, start, actions)
  {
    hide Act, CaughtUp;
    if actions != [] {
      var n := |actions| - 1;
      LostExactly(log, start, actions[..n]);
      assert forall i | 0 <= i < n :: actions[..n][..i] == actions[..i] && actions[..n][i] == actions[i];
      ActLoses(RunFrom(log, start, actions[..n]), actions[n]);
    }
  }

  /** Under any interleaving of appends, ticks and failures, a subscriber has been sent exactly the
      events above its starting cursor and up to its current one, in order, without gap or repeat,
      if and only if every tick whose encoding failed had nothing to send. */
  lemma SentIsExactlyWhatThePassedCursorCovers(log: seq<Event>, start: int, actions: seq<Action>)
    ensures var s := RunFrom(log, start, actions); var base := AtLeastZero(start);
            EncodeFailuresAreIdle(log, start, actions) <==>
              && |s.sent| == Passed(s, start)
              && forall i | 0 <= i < |s.sent| :: base + i < |s.log| && s.sent[i] == StoredAt(s.log, base + i)
  {
    hide RunFrom, EncodeFailuresAreIdle;
    RunTracks(log, start, actions);
    LostExactly(log, start, actions);
  }

  /** After a delivered tick nothing is outstanding. */
  lemma DeliveredTickCatchesUp(log: seq<Event>, start: int, actions: seq<Action>)
    ensures CaughtUp(RunFrom(log, start, actions + [Tick(Delivered)]))
  {
    var all := actions + [Tick(Delivered)];
    assert all[..|actions|] == actions;
    RunTracks(log, start, actions);
    ActKeepsTracks(RunFrom(log, start, actions), start, Tick(Delivered));
  }

  /** Read errors lose nothing. */
  lemma NothingLostWithoutEncodingFailure(log: seq<Event>, start: int, actions: seq<Action>)
    requires Tick(EncodeFailed) !in actions
    ensures RunFrom(log, start, actions).lost == 0
  {
    LostExactly(log, start, actions);
  }

  // ----- The route -----

  /** One subscription: the cursor is a variable captured by the stream's closure. */
  class Subscription {
    const store: SqliteStore
    var after: int
    ghost var sent: seq<StoredEvent>
    ghost var lost: nat

    constructor (store: SqliteStore, after: Option<int>)
      ensures this.store == store && View() == Stream(store.log, if after.Some? then after.value else 0, [], 0)
    {
      this.store := store;
      this.after := if after.Some? then after.value else 0;
      sent, lost := [], 0;
    }

    ghost function View(): Stream reads this, store {
      Stream(store.log, after, sent, lost)
    }

    /** One tick, for the answer that the store gives to it, and for whether the encoder fails on it.
        Nothing is reported of a batch that could not be read or encoded: the client gets an empty one. */
    method Tick(read: Result<seq<StoredEvent>, StoreError>, encodes: bool) returns (data: seq<StoredEvent>)
      requires read.Success? ==> read.value == EventStore.EventsAfter(store.log, after, |store.log|)
      modifies this
      ensures View() == Act(old(View()), Action.Tick(if read.Failure? then ReadFailed
                                                      else if encodes then Delivered else EncodeFailed))
      ensures data == if read.Success? && encodes then read.value else []
      ensures sent == old(sent) + data
    {
      var events := if read.Success? then read.value else [];
      if |events| > 0 {
        after := events[|events| - 1].id;
      }
      data := if encodes then events else [];
      if read.Success? && !encodes {
        lost := lost + |events|;
      }
      sent := sent + data;
    }

    /** The closure that runs once a second. */
    method Poll(encodes: bool) returns (data: seq<StoredEvent>, ghost read: Result<seq<StoredEvent>, StoreError>)
      modifies this
      ensures read.Success? ==> read.value == EventStore.EventsAfter(store.log, old(after), |store.log|)
      ensures View() == Act(old(View()), Action.Tick(if read.Failure? then ReadFailed
                                                      else if encodes then Delivered else EncodeFailed))
      ensures sent == old(sent) + data
    {
      var events := store.EventsAfter(after);
      read := events;
      data := Tick(events, encodes);
    }
  }
}
