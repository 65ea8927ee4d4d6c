/** The Telegram poll loop: updates are fetched from an offset, and the next offset is written to a
    file before an update is handled, so that a crash cannot make it handled twice. */
module Telegram {
  import opened Wrappers

  type Offset = Option<int>

  // ----- The bot server -----

  /** Updates arrive with increasing ids. */
  predicate Increasing(ids: seq<int>) {
    forall i, j :: 0 <= i < j < |ids| ==> ids[i] < ids[j]
  }

  /** The position of the first update at or above the offset. */
  function FirstFrom(updates: seq<int>, offset: Offset): (n: nat)
    ensures n <= |updates|
    ensures offset.None? ==> n == 0
    ensures offset.Some? ==> forall i :: 0 <= i < n ==> updates[i] < offset.value
    ensures offset.Some? && n < |updates| ==> updates[n] >= offset.value
  {
    if offset.None? || updates == [] || updates[0] >= offset.value then 0
    else 1 + FirstFrom(updates[1..], offset)
  }

  // ----- The loop as steps -----

  /** `updates` is all the server will ever have; `file` the persisted offset, `offset` the one in
      memory; `batch` what was fetched and not reached yet; `current` an update whose offset is
      persisted and that is not handled yet; `handled` and `crashes` are histories. */
  datatype Poller = Poller(
    updates: seq<int>, file: Offset, offset: Offset, batch: seq<int>, current: Option<int>,
    handled: seq<int>, crashes: nat)

  datatype Step =
    | Fetch(upto: nat)
    | FetchFail
    | Persist
    | PersistFail(left: Offset)
    | Handle
    | Crash

  function Start(updates: seq<int>): Poller {
    Poller(updates, None, None, [], None, [], 0)
  }

  /** One step; impossible steps change nothing. A failed write may leave something else in the
      file than it held before: `left`. A crash restarts the loop from the file. */
  function Next(p: Poller, st: Step): Poller {
    match st
    case Fetch(upto) =>
      var first := FirstFrom(p.updates, p.offset);
      if p.batch == [] && p.current.None? && first <= upto <= |p.updates| then p.(batch := p.updates[first..upto]) else p
    case FetchFail => p
    case Persist =>
      if p.batch == [] || p.current.Some? then p
      else
        var next := Some(p.batch[0] + 1);
        p.(file := next, offset := next, current := Some(p.batch[0]), batch := p.batch[1..])
    case PersistFail(left) => if p.batch == [] || p.current.Some? then p else p.(file := left, batch := [])
    case Handle => if p.current.None? then p else p.(handled := p.handled + [p.current.value], current := None)
    case Crash => p.(offset := p.file, batch := [], current := None, crashes := p.crashes + 1)
  }

  function Run(p: Poller, steps: seq<Step>): Poller {
    if steps == [] then p else Next(Run(p, steps[..|steps| - 1]), steps[|steps| - 1])
  }

  lemma RunSnoc(p: Poller, steps: seq<Step>, st: Step)
    ensures Run(p, steps + [st]) == Next(Run(p, steps), st)
  {
    assert (steps + [st])[..|steps|] == steps;
  }

  // ----- What a failed write may leave -----

  /** A process that starts from `left` is not sent anything that was handled. */
  predicate Above(handled: seq<int>, left: Offset) {
    forall h | h in handled :: left.Some? && h < left.value
  }

  predicate FailsToWrite(p: Poller, st: Step) {
    st.PersistFail? && p.batch != [] && p.current.None?
  }

  /** A failed write that leaves an offset above everything handled: the old one, the new one, any
      one in between, or anything at all while nothing was handled. */
  predicate Harmless(p: Poller, st: Step) {
    FailsToWrite(p, st) ==> Above(p.handled, st.left)
  }

  ghost predicate HarmlessRun(p: Poller, steps: seq<Step>) {
    forall i | 0 <= i < |steps| :: Harmless(Run(p, steps[..i]), steps[i])
  }

  /** A failed write that does not leave an offset past more than the update it was written for. */
  predicate OnlyNext(p: Poller, st: Step) {
    FailsToWrite(p, st) ==> FirstFrom(p.updates, st.left) <= FirstFrom(p.updates, p.offset) + 1
  }

  ghost predicate OnlyNextRun(p: Poller, steps: seq<Step>) {
    forall i | 0 <= i < |steps| :: OnlyNext(Run(p, steps[..i]), steps[i])
  }

  lemma PrefixIsHarmless(p: Poller, steps: seq<Step>)
    requires steps != []
    ensures var front := steps[..|steps| - 1];
            && (HarmlessRun(p, steps) ==> HarmlessRun(p, front) && Harmless(Run(p, front), steps[|steps| - 1]))
            && (OnlyNextRun(p, steps) ==> OnlyNextRun(p, front) && OnlyNext(Run(p, front), steps[|steps| - 1]))
  {
    hide Run, Harmless, OnlyNext;
    var n := |steps| - 1;
    assert forall i | 0 <= i < n :: steps[..n][..i] == steps[..i] && steps[..n][i] == steps[i];
  }

  // ----- The invariant -----

  ghost predicate PollerInv(p: Poller) {
    var reached := FirstFrom(p.updates, p.offset);
    && Increasing(p.updates) && Increasing(p.handled)
    && (forall h | h in p.handled :: h in p.updates)
    && Above(p.handled, p.offset) && Above(p.handled, p.file)
    && reached + |p.batch| <= |p.updates| && p.batch == p.updates[reached..reached + |p.batch|]
    && (p.current.Some? ==>
          && p.file == p.offset && reached > 0 && p.updates[reached - 1] == p.current.value
          && p.offset == Some(p.current.value + 1) && Above(p.handled, p.current))
    && (p.crashes == 0 ==> p.handled == p.updates[..if p.current.Some? then reached - 1 else reached])
  }

  /** Below the offset at most one update for each crash was not handled, besides the one in hand. */
  ghost predicate LossInv(p: Poller) {
    var reached := FirstFrom(p.updates, p.offset);
    && reached <= |p.handled| + p.crashes + (if p.current.Some? then 1 else 0)
    && FirstFrom(p.updates, p.file) <= if p.current.Some? then reached else reached + 1
  }

  lemma FirstIs(updates: seq<int>, offset: int, n: nat)
    requires n <= |updates|
    requires forall i | 0 <= i < n :: updates[i] < offset
    requires n < |updates| ==> updates[n] >= offset
    ensures FirstFrom(updates, Some(offset)) == n
  {
    hide FirstFrom;
  }

  lemma FirstAbove(updates: seq<int>, k: nat)
    requires Increasing(updates) && k < |updates|
    ensures FirstFrom(updates, Some(updates[k] + 1)) == k + 1
  {
    FirstIs(updates, updates[k] + 1, k + 1);
  }

  lemma FetchKeepsInv(p: Poller, upto: nat)
    requires PollerInv(p)
    ensures PollerInv(Next(p, Fetch(upto)))
  {
    hide FirstFrom;
    var first := FirstFrom(p.updates, p.offset);
    if first <= upto <= |p.updates| {
      assert first + |p.updates[first..upto]| == upto;
    }
  }

  lemma PersistKeepsInv(p: Poller)
    requires PollerInv(p) && p.batch != [] && p.current.None?
    ensures PollerInv(Next(p, Persist))
    ensures FirstFrom(p.updates, Next(p, Persist).offset) == FirstFrom(p.updates, p.offset) + 1
  {
    hide FirstFrom;
    var reached := FirstFrom(p.updates, p.offset);
    assert p.batch[0] == p.updates[reached];
    FirstAbove(p.updates, reached);
    assert p.batch[1..] == p.updates[reached + 1..reached + |p.batch|];
    assert p.offset.Some? ==> p.offset.value <= p.updates[reached];
  }

  lemma HandleKeepsInv(p: Poller)
    requires PollerInv(p) && p.current.Some?
    ensures PollerInv(Next(p, Handle))
  {
    hide FirstFrom;
    var reached := FirstFrom(p.updates, p.offset);
    assert p.updates[..reached] == p.updates[..reached - 1] + [p.updates[reached - 1]];
    assert forall i | 0 <= i < |p.handled| :: p.handled[i] in p.handled;
  }

  lemma NextKeepsUpdates(p: Poller, st: Step)
    ensures Next(p, st).updates == p.updates
  {
  }

  lemma NextKeepsInv(p: Poller, st: Step)
    requires PollerInv(p) && Harmless(p, st)
    ensures PollerInv(Next(p, st))
  {
    hide FirstFrom, Increasing;
    match st {
      case Fetch(upto) => FetchKeepsInv(p, upto);
      case Persist => if p.batch != [] && p.current.None? { PersistKeepsInv(p); }
      case Handle => if p.current.Some? { HandleKeepsInv(p); }
      case _ =>
    }
  }

  lemma NextKeepsLoss(p: Poller, st: Step)
    requires PollerInv(p) && LossInv(p) && OnlyNext(p, st)
    ensures LossInv(Next(p, st))
  {
    hide FirstFrom, Increasing;
    if st.Persist? && p.batch != [] && p.current.None? {
      PersistKeepsInv(p);
    }
  }

  lemma {:induction false} RunKeepsInv(p: Poller, steps: seq<Step>)
    requires PollerInv(p) && HarmlessRun(p, steps)
    ensures PollerInv(Run(p, steps)) && Run(p, steps).updates == p.updates
    ensures LossInv(p) && OnlyNextRun(p, steps) ==> LossInv(Run(p, steps))
  {
    hide Next, PollerInv, LossInv, Harmless, OnlyNext, HarmlessRun, OnlyNextRun;
    if steps != [] {
      var n := |steps| - 1;
      PrefixIsHarmless(p, steps);
      RunKeepsInv(p, steps[..n]);
      NextKeepsInv(Run(p, steps[..n]), steps[n]);
      NextKeepsUpdates(Run(p, steps[..n]), steps[n]);
      if LossInv(p) && OnlyNextRun(p, steps) {
        NextKeepsLoss(Run(p, steps[..n]), steps[n]);
      }
    }
  }

  lemma StartInv(updates: seq<int>)
    requires Increasing(updates)
    ensures PollerInv(Start(updates)) && LossInv(Start(updates))
  {
  }

  // ----- The claims -----

  /** Over every run with failed fetches, harmless failed writes and crashes, each update is handled
      at most once and in order; what was handled is below the persisted offset; and until the first
      crash exactly the updates below the offset in memory were handled. */
  lemma HandledAtMostOnceAndInOrder(updates: seq<int>, steps: seq<Step>)
    requires Increasing(updates) && HarmlessRun(Start(updates), steps)
    ensures var p := Run(Start(updates), steps);
            && Increasing(p.handled)
            && (forall h | h in p.handled :: h in updates)
            && Above(p.handled, p.file)
            && (p.crashes == 0 && p.current.None? ==> p.handled == updates[..FirstFrom(updates, p.offset)])
  {
    hide FirstFrom, Next, Run;
    StartInv(updates);
    RunKeepsInv(Start(updates), steps);
  }

  /** If failed writes do not run ahead either, each crash loses at most one update: that is how far
      the loop is behind the persisted offset, besides the update whose offset was just written. */
  lemma EachCrashLosesAtMostOne(updates: seq<int>, steps: seq<Step>)
    requires Increasing(updates) && HarmlessRun(Start(updates), steps) && OnlyNextRun(Start(updates), steps)
    ensures var p := Run(Start(updates), steps);
            && FirstFrom(updates, p.offset) <= |p.handled| + p.crashes + (if p.current.Some? then 1 else 0)
            && FirstFrom(updates, p.file) <= |p.handled| + p.crashes + 1
  {
    hide FirstFrom, Next, Run;
    StartInv(updates);
    RunKeepsInv(Start(updates), steps);
  }

  // ----- Which failed writes are harmless -----

  /** A crash, a fetch and one update more, from an offset that is not above what was handled. */
  lemma RepeatsAfterCrash(p: Poller, left: Offset)
    requires PollerInv(p) && p.batch != [] && p.current.None? && !Above(p.handled, left)
    ensures var q := Next(p, PersistFail(left)); var more := [Crash, Fetch(|p.updates|), Persist, Handle];
            HarmlessRun(q, more) && !Increasing(Run(q, more).handled)
  {
    hide FirstFrom, Run, Next;
    var q := Next(p, PersistFail(left));
    var more := [Crash, Fetch(|p.updates|), Persist, Handle];
    var h :| h in p.handled && (left.None? || left.value <= h);
    var first := FirstFrom(p.updates, left);
    FirstIsAtOrBefore(p.updates, left, h);
    var again := p.updates[first];
    FourSteps(p, left);
    assert Run(q, more).handled == p.handled + [again];
    var k :| 0 <= k < |p.handled| && p.handled[k] == h;
    assert (p.handled + [again])[k] == h && (p.handled + [again])[|p.handled|] == again;
    assert forall i | 0 <= i < |more| :: !more[i].PersistFail?;
  }

  lemma FirstIsAtOrBefore(updates: seq<int>, left: Offset, h: int)
    requires Increasing(updates) && h in updates && (left.None? || left.value <= h)
    ensures var first := FirstFrom(updates, left); first < |updates| && updates[first] <= h
  {
    hide FirstFrom;
    var j :| 0 <= j < |updates| && updates[j] == h;
    assert FirstFrom(updates, left) <= j;
  }

  lemma FourSteps(p: Poller, left: Offset)
    requires p.batch != [] && p.current.None? && FirstFrom(p.updates, left) < |p.updates|
    ensures var q := Next(p, PersistFail(left));
            Run(q, [Crash, Fetch(|p.updates|), Persist, Handle]).handled ==
            p.handled + [p.updates[FirstFrom(p.updates, left)]]
  {
    hide FirstFrom, Run;
    RunFour(Next(p, PersistFail(left)), Crash, Fetch(|p.updates|), Persist, Handle);
  }

  lemma RunFour(p: Poller, a: Step, b: Step, c: Step, d: Step)
    ensures Run(p, [a, b, c, d]) == Next(Next(Next(Next(p, a), b), c), d)
  {
    hide Next, Run;
    RunNothing(p);
    RunSnoc(p, [], a);
    RunSnoc(p, [a], b);
    RunSnoc(p, [a, b], c);
    RunSnoc(p, [a, b, c], d);
    assert [] + [a] == [a] && [a] + [b] == [a, b] && [a, b] + [c] == [a, b, c] && [a, b, c] + [d] == [a, b, c, d];
  }

  /** The exact condition on a failed write: whatever happens next, short of another harmful write,
      no update is handled twice or out of order, if and only if the write left an offset above
      everything handled so far. */
  lemma FailedWriteIsHarmlessExactly(updates: seq<int>, steps: seq<Step>, left: Offset)
    requires Increasing(updates) && HarmlessRun(Start(updates), steps)
    requires FailsToWrite(Run(Start(updates), steps), PersistFail(left))
    ensures var p := Run(Start(updates), steps); var q := Next(p, PersistFail(left));
            Above(p.handled, left) <==> forall more | HarmlessRun(q, more) :: Increasing(Run(q, more).handled)
  {
    hide FirstFrom, Run, Next;
    StartInv(updates);
    RunKeepsInv(Start(updates), steps);
    var p := Run(Start(updates), steps);
    var q := Next(p, PersistFail(left));
    if Above(p.handled, left) {
      NextKeepsInv(p, PersistFail(left));
      forall more | HarmlessRun(q, more)
        ensures Increasing(Run(q, more).handled)
      {
        RunKeepsInv(q, more);
      }
    } else {
      RepeatsAfterCrash(p, left);
    }
  }

  /** The failed write that empties the file, from the start: a restart begins again. */
  lemma EmptiedFileHandlesTwice() returns (updates: seq<int>, steps: seq<Step>)
    ensures Increasing(updates) && !Increasing(Run(Start(updates), steps).handled)
  {
    hide FirstFrom, Run;
    updates := [1, 2];
    var p := Start(updates);
    steps := [];
    assert Run(p, steps) == p by { RunNothing(p); }
    RunSnoc(p, steps, Fetch(2));
    steps := steps + [Fetch(2)];
    assert Run(p, steps) == p.(batch := [1, 2]);
    RunSnoc(p, steps, Persist);
    RunSnoc(p, steps + [Persist], Handle);
    steps := steps + [Persist] + [Handle];
    assert Run(p, steps) == Poller([1, 2], Some(2), Some(2), [2], None, [1], 0);
    RunSnoc(p, steps, PersistFail(None));
    RunSnoc(p, steps + [PersistFail(None)], Crash);
    steps := steps + [PersistFail(None)] + [Crash];
    assert Run(p, steps) == Poller([1, 2], None, None, [], None, [1], 1);
    RunSnoc(p, steps, Fetch(2));
    RunSnoc(p, steps + [Fetch(2)], Persist);
    RunSnoc(p, steps + [Fetch(2)] + [Persist], Handle);
    steps := steps + [Fetch(2)] + [Persist] + [Handle];
    var handled := Run(p, steps).handled;
    assert handled == [1, 1] && handled[0] == handled[1];
  }

  lemma RunNothing(p: Poller)
    ensures Run(p, []) == p
  {
  }

  // ----- The loop -----

  /** `failures` counts the writes that failed. */
  class OffsetFile {
    var offset: Offset
    ghost var failures: nat

    constructor ()
      ensures offset == None && failures == 0
    {
      offset := None;
      failures := 0;
    }

    /** A write truncates the file first, so one that fails may leave any offset, or none. */
    method Persist(next: int) returns (ok: bool)
      modifies this
      ensures ok ==> offset == Some(next)
      ensures failures == old(failures) + if ok then 0 else 1
    {
      ok := *;
      if ok {
        offset := Some(next);
      } else {
        offset := *;
        failures := failures + 1;
      }
    }
  }

  /** How far into `updates` an answer of at most `n` more goes. */
  function Upto(updates: seq<int>, from: nat, n: nat): (upto: nat)
    requires from <= |updates|
    ensures from <= upto <= |updates| && (upto == from + n || (upto == |updates| && upto < from + n))
  {
    if from + n <= |updates| then from + n else |updates|
  }

  /** What the server answers: the next `n` updates from the offset on, or as many as it has. */
  method GetUpdates(updates: seq<int>, offset: Offset, n: nat) returns (answer: seq<int>)
    ensures var first := FirstFrom(updates, offset); answer == updates[first..Upto(updates, first, n)]
  {
    var first := FirstFrom(updates, offset);
    answer := updates[first..Upto(updates, first, n)];
  }

  lemma StepTaken(p: Poller, steps: seq<Step>, st: Step)
    requires Crash !in steps && st != Crash
    ensures Run(p, steps + [st]) == Next(Run(p, steps), st)
    ensures Crash !in steps + [st]
  {
    RunSnoc(p, steps, st);
  }

  lemma PersistAt(p: Poller, batch: seq<int>, i: nat)
    requires i < |batch| && p.batch == batch[i..] && p.current.None?
    ensures var next := Some(batch[i] + 1);
            Next(p, Persist) == p.(file := next, offset := next, current := Some(batch[i]), batch := batch[i + 1..])
    ensures forall left :: Next(p, PersistFail(left)) == p.(file := left, batch := [])
  {
  }

  lemma HandleCurrent(p: Poller)
    requires p.current.Some?
    ensures Next(p, Handle) == p.(handled := p.handled + [p.current.value], current := None)
  {
  }

  lemma FetchUpTo(p: Poller, upto: nat)
    requires p.batch == [] && p.current.None? && FirstFrom(p.updates, p.offset) <= upto <= |p.updates|
    ensures Next(p, Fetch(upto)) == p.(batch := p.updates[FirstFrom(p.updates, p.offset)..upto])
  {
  }

  lemma {:induction false} RunTwoParts(p: Poller, a: seq<Step>, b: seq<Step>)
    ensures Run(p, a + b) == Run(Run(p, a), b)
  {
    hide Next;
    if b == [] {
      assert a + b == a;
    } else {
      var n := |b| - 1;
      assert (a + b)[..|a| + n] == a + b[..n];
      RunTwoParts(p, a, b[..n]);
    }
  }

  /** The updates of one answer: the offset of each is written before it is handled. A failed write
      drops the rest; the process may die once an offset is written. */
  method HandleBatch(file: OffsetFile, offset: Offset, batch: seq<int>, ghost before: Poller)
    returns (after: Offset, handled: seq<int>, died: bool, ghost steps: seq<Step>)
    requires before == Poller(before.updates, file.offset, offset, batch, None, before.handled, before.crashes)
    modifies file
    ensures Crash !in steps
    ensures var p := Run(before, steps);
            && p.updates == before.updates && p.file == file.offset && p.offset == after && p.crashes == before.crashes
            && p.handled == before.handled + handled
            && (!died ==> p.batch == [] && p.current.None?) && (died ==> p.current.Some?)
    ensures handled <= batch && old(file.failures) <= file.failures <= old(file.failures) + 1
    ensures file.failures == old(file.failures) && !died ==>
              handled == batch && after == if batch == [] then offset else Some(batch[|batch| - 1] + 1)
  {
    hide Run, Next;
    RunNothing(before);
    after, handled, died, steps := offset, [], false, [];
    for i := 0 to |batch|
      invariant !died && Crash !in steps
      invariant Run(before, steps) ==
                Poller(before.updates, file.offset, after, batch[i..], None, before.handled + handled, before.crashes)
      invariant handled == batch[..i] && file.failures == old(file.failures)
      invariant after == if i == 0 then offset else Some(batch[i - 1] + 1)
    {
      PersistAt(Run(before, steps), batch, i);
      var nextOffset := batch[i] + 1;
      var ok := file.Persist(nextOffset);
      if !ok {
        StepTaken(before, steps, PersistFail(file.offset));
        steps := steps + [PersistFail(file.offset)];
        return;
      }
      StepTaken(before, steps, Persist);
      steps := steps + [Persist];
      after := Some(nextOffset);
      died := *;
      if died {
        return;
      }
      HandleCurrent(Run(before, steps));
      StepTaken(before, steps, Handle);
      steps := steps + [Handle];
      assert before.handled + (handled + [batch[i]]) == before.handled + handled + [batch[i]];
      handled := handled + [batch[i]];
    }
  }

  function Offer(answer: Option<nat>): nat {
    if answer.Some? then answer.value else 0
  }

  /** How many updates some answers offer; no answer is an unreachable server. */
  function Offered(answers: seq<Option<nat>>): nat {
    if answers == [] then 0
    else
      var last := answers[|answers| - 1];
      Offered(answers[..|answers| - 1]) + Offer(last)
  }

  lemma AfterBatch(updates: seq<int>, offset: Offset, n: nat, after: Offset)
    requires Increasing(updates)
    requires var first := FirstFrom(updates, offset); var batch := updates[first..Upto(updates, first, n)];
             after == if batch == [] then offset else Some(batch[|batch| - 1] + 1)
    ensures FirstFrom(updates, after) == Upto(updates, FirstFrom(updates, offset), n)
  {
    hide FirstFrom;
    var first := FirstFrom(updates, offset);
    var upto := Upto(updates, first, n);
    if upto > first {
      assert updates[first..upto][upto - first - 1] == updates[upto - 1];
      FirstAbove(updates, upto - 1);
    }
  }

  lemma OfferedMore(answers: seq<Option<nat>>, k: nat)
    requires k < |answers|
    ensures Offered(answers[..k + 1]) == Offered(answers[..k]) + Offer(answers[k])
  {
    assert answers[..k + 1][..k] == answers[..k];
  }

  /** One round of the loop. */
  method PollOnce(file: OffsetFile, updates: seq<int>, offset: Offset, answer: Option<nat>, ghost before: Poller)
    returns (after: Offset, handled: seq<int>, died: bool, ghost steps: seq<Step>)
    requires before == Poller(updates, file.offset, offset, [], None, before.handled, before.crashes)
    modifies file
    ensures Crash !in steps && file.failures >= old(file.failures)
    ensures var p := Run(before, steps);
            && p.updates == updates && p.file == file.offset && p.offset == after && p.crashes == before.crashes
            && p.handled == before.handled + handled
            && (!died ==> p.batch == [] && p.current.None?) && (died ==> p.current.Some?)
    ensures Increasing(updates) && !died && file.failures == old(file.failures) ==>
              var from := FirstFrom(updates, offset); var upto := Upto(updates, from, Offer(answer));
              handled == updates[from..upto] && FirstFrom(updates, after) == upto
  {
    hide FirstFrom, Run, Next, Increasing;
    RunNothing(before);
    if answer.None? {
      return offset, [], false, [];
    }
    var batch := GetUpdates(updates, offset, answer.value);
    ghost var upto := Upto(updates, FirstFrom(updates, offset), answer.value);
    FetchUpTo(before, upto);
    StepTaken(before, [], Fetch(upto));
    ghost var taken;
    after, handled, died, taken := HandleBatch(file, offset, batch, Run(before, [] + [Fetch(upto)]));
    RunTwoParts(before, [] + [Fetch(upto)], taken);
    steps := [] + [Fetch(upto)] + taken;
    if Increasing(updates) && !died && file.failures == old(file.failures) {
      AfterBatch(updates, offset, answer.value, after);
    }
  }

  /** One process of the loop, until it has had these answers or dies between writing the offset of an
      update and handling it. From wherever earlier processes and failed writes left the file, it takes
      steps of the protocol and none else; and if it does not die and no write fails, it handles all
      the updates it is offered, from the offset in the file on. */
  method PollLoop(file: OffsetFile, updates: seq<int>, answers: seq<Option<nat>>, ghost before: Poller)
    returns (handled: seq<int>, died: bool, ghost steps: seq<Step>)
    requires before == Poller(updates, file.offset, file.offset, [], None, before.handled, before.crashes)
    modifies file
    ensures Crash !in steps
    ensures var after := Run(before, steps);
            && after.file == file.offset && after.handled == before.handled + handled && after.crashes == before.crashes
            && (died ==> after.current.Some?)
    ensures Increasing(updates) && !died && file.failures == old(file.failures) ==>
              var first := FirstFrom(updates, old(file.offset));
              handled == updates[first..Upto(updates, first, Offered(answers))]
  {
    hide FirstFrom, Run, Next, Increasing, Offered;
    var offset := file.offset;
    handled, died, steps := [], false, [];
    ghost var first := FirstFrom(updates, offset);
    RunNothing(before);
    NothingOffered();
    assert answers[..0] == [];
    for round := 0 to |answers|
      invariant Run(before, steps) ==
                Poller(updates, file.offset, offset, [], None, before.handled + handled, before.crashes)
      invariant Crash !in steps && file.failures >= old(file.failures)
      invariant Increasing(updates) && file.failures == old(file.failures) ==>
                  var upto := Upto(updates, first, Offered(answers[..round]));
                  FirstFrom(updates, offset) == upto && handled == updates[first..upto]
    {
      OfferedMore(answers, round);
      ghost var from := FirstFrom(updates, offset);
      ghost var taken;
      var more;
      offset, more, died, taken := PollOnce(file, updates, offset, answers[round], Run(before, steps));
      RunTwoParts(before, steps, taken);
      assert before.handled + (handled + more) == before.handled + handled + more;
      if Increasing(updates) && file.failures == old(file.failures) && !died {
        ghost var upto := Upto(updates, from, Offer(answers[round]));
        assert updates[first..from] + updates[from..upto] == updates[first..upto];
      }
      handled, steps := handled + more, steps + taken;
      if died {
        return;
      }
    }
    assert answers[..|answers|] == answers;
  }

  lemma NothingOffered()
    ensures Offered([]) == 0
  {
  }

  /** Stopping a process and starting another from the file. */
  lemma Restarted(p: Poller, steps: seq<Step>)
    ensures var q := Run(p, steps);
            Run(p, steps + [Crash]) == Poller(q.updates, q.file, q.file, [], None, q.handled, q.crashes + 1)
  {
    RunSnoc(p, steps, Crash);
  }

  /** Any number of processes one after another, each stopped or killed. If their failed writes were
      harmless, then over all of them every update is handled at most once and in order; if the
      writes did not run ahead either, each process leaves at most one of the updates below the
      offset unhandled. */
  method Processes(file: OffsetFile, updates: seq<int>, sessions: seq<seq<Option<nat>>>)
    returns (handled: seq<int>, ghost steps: seq<Step>)
    requires Increasing(updates) && file.offset == None
    modifies file
    ensures Run(Start(updates), steps) == Poller(updates, file.offset, file.offset, [], None, handled, |sessions|)
    ensures HarmlessRun(Start(updates), steps) ==>
              && Increasing(handled) && Above(handled, file.offset)
              && forall h | h in handled :: h in updates
    ensures HarmlessRun(Start(updates), steps) && OnlyNextRun(Start(updates), steps) ==>
              FirstFrom(updates, file.offset) <= |handled| + |sessions|
  {
    hide Run, Next, HarmlessRun, OnlyNextRun, FirstFrom;
    handled, steps := [], [];
    NothingRun(updates);
    for k := 0 to |sessions|
      invariant Run(Start(updates), steps) == Poller(updates, file.offset, file.offset, [], None, handled, k)
    {
      var more, died, taken := PollLoop(file, updates, sessions[k], Run(Start(updates), steps));
      RunTwoParts(Start(updates), steps, taken);
      NextsKeepUpdates(Run(Start(updates), steps), taken);
      steps := steps + taken;
      Restarted(Start(updates), steps);
      steps := steps + [Crash];
      handled := handled + more;
    }
    if HarmlessRun(Start(updates), steps) {
      HandledAtMostOnceAndInOrder(updates, steps);
      if OnlyNextRun(Start(updates), steps) {
        EachCrashLosesAtMostOne(updates, steps);
      }
    }
  }

  lemma NothingRun(updates: seq<int>)
    ensures Run(Start(updates), []) == Start(updates)
  {
  }

  lemma {:induction false} NextsKeepUpdates(p: Poller, steps: seq<Step>)
    ensures Run(p, steps).updates == p.updates
  {
    hide Next;
    if steps != [] {
      NextsKeepUpdates(p, steps[..|steps| - 1]);
      NextKeepsUpdates(Run(p, steps[..|steps| - 1]), steps[|steps| - 1]);
    }
  }
}
