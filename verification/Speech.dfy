/** Speaking a reply while it streams in: the text is cut at clause punctuation, or at the last
    space when a clause runs long, and every piece is queued for the synthesiser. */
module Speech {
  import opened Text

  const FIRST_CHUNK_CHARS := 28
  const LATER_CHUNK_CHARS := 120
  const MIN_FORCED_CHARS := 12

  predicate IsClause(c: char) {
    c == ',' || c == '.' || c == '!' || c == '?' || c == ':' || c == ';'
  }

  predicate HasClause(s: string) {
    exists i :: 0 <= i < |s| && IsClause(s[i])
  }

  // ----- The regular expression [^,.!?:;]*[,.!?:;]+\s* -----

  /** The length of the longest prefix of plain characters. */
  function PlainRun(s: string): (n: nat)
    ensures n <= |s|
    ensures forall i :: 0 <= i < n ==> !IsClause(s[i])
    ensures n < |s| ==> IsClause(s[n])
  {
    if s == [] || IsClause(s[0]) then 0 else 1 + PlainRun(s[1..])
  }

  function ClauseRun(s: string): (n: nat)
    ensures n <= |s|
    ensures forall i :: 0 <= i < n ==> IsClause(s[i])
    ensures n < |s| ==> !IsClause(s[n])
  {
    if s == [] || !IsClause(s[0]) then 0 else 1 + ClauseRun(s[1..])
  }

  function SpaceRun(s: string): (n: nat)
    ensures n <= |s|
    ensures forall i :: 0 <= i < n ==> IsSpace(s[i])
    ensures n < |s| ==> !IsSpace(s[n])
  {
    if s == [] || !IsSpace(s[0]) then 0 else 1 + SpaceRun(s[1..])
  }

  /** The length of the match at the start of `s`: plain text, its punctuation, the space after it. */
  function MatchLength(s: string): (n: nat)
    requires HasClause(s)
    ensures 0 < n <= |s|
  {
    var p := PlainRun(s);
    assert p < |s| && IsClause(s[p..][0]);
    var q := p + ClauseRun(s[p..]);
    q + SpaceRun(s[q..])
  }

  /** The match is what the expression says, each part as long as it can be. */
  lemma MatchIsGreedy(s: string) returns (p: nat, q: nat)
    requires HasClause(s)
    ensures var n := MatchLength(s);
            && p < q <= n <= |s|
            && (forall i :: 0 <= i < p ==> !IsClause(s[i]))
            && (forall i :: p <= i < q ==> IsClause(s[i]))
            && (forall i :: q <= i < n ==> IsSpace(s[i]))
            && (q < |s| ==> !IsClause(s[q])) && (n < |s| ==> !IsSpace(s[n]))
  {
    hide PlainRun, ClauseRun, SpaceRun, IsClause, Text.IsSpace;
    p := PlainRun(s);
    assert p < |s| && IsClause(s[p..][0]);
    q := p + ClauseRun(s[p..]);
    var n := q + SpaceRun(s[q..]);
    assert forall i :: p <= i < q ==> s[i] == s[p..][i - p];
    assert forall i :: q <= i < n ==> s[i] == s[q..][i - q];
    assert q < |s| ==> s[q] == s[p..][q - p];
    assert n < |s| ==> s[n] == s[q..][n - q];
  }

  /** All matches, one after another from the start of the text. */
  function Matches(s: string): seq<string> {
    if !HasClause(s) then []
    else [s[..MatchLength(s)]] + Matches(s[MatchLength(s)..])
  }

  /** Plain text, then punctuation, then white space: `p` and `q` are where the parts begin. */
  ghost predicate ClausePiece(m: string, p: nat, q: nat) {
    && p < q <= |m|
    && (forall i :: 0 <= i < p ==> m[i] !in ",.!?:;")
    && (forall i :: p <= i < q ==> m[i] in ",.!?:;")
    && (forall i :: q <= i < |m| ==> IsSpace(m[i]))
  }

  /** One piece took all the punctuation and all the white space before the next. */
  ghost predicate CutBetween(m: string, next: string) {
    && m != [] && next != []
    && !IsSpace(next[0]) && (IsSpace(m[|m| - 1]) || next[0] !in ",.!?:;")
  }

  ghost predicate IsClausePiece(m: string) {
    exists p, q :: ClausePiece(m, p, q)
  }

  ghost predicate AreClauses(pieces: seq<string>) {
    && (forall k | 0 <= k < |pieces| :: IsClausePiece(pieces[k]))
    && (forall k | 0 < k < |pieces| :: CutBetween(pieces[k - 1], pieces[k]))
  }

  lemma OneMoreClause(m: string, rest: seq<string>)
    requires IsClausePiece(m) && AreClauses(rest) && (rest != [] ==> CutBetween(m, rest[0]))
    ensures AreClauses([m] + rest)
  {
    hide IsClausePiece, CutBetween;
  }

  /** The matches are clauses, each as long as it can be. */
  lemma {:induction false} MatchesAreClauses(s: string)
    ensures AreClauses(Matches(s))
  {
    hide IsClausePiece, CutBetween, AreClauses, MatchLength, HasClause;
    if HasClause(s) {
      var n := MatchLength(s);
      MatchesAreClauses(s[n..]);
      FirstPiece(s);
      if Matches(s[n..]) != [] {
        MatchIsAPrefix(s[n..]);
      }
      OneMoreClause(s[..n], Matches(s[n..]));
    } else {
      NoClauses();
    }
  }

  lemma NoClauses()
    ensures AreClauses([])
  {
  }

  lemma MatchIsAPrefix(s: string)
    requires Matches(s) != []
    ensures HasClause(s) && Matches(s)[0] == s[..MatchLength(s)] && Matches(s)[0] != []
  {
    hide MatchLength, HasClause;
  }

  lemma FirstPiece(s: string)
    requires HasClause(s)
    ensures var n := MatchLength(s);
            && IsClausePiece(s[..n])
            && (forall next :: n < |s| && next != [] && next[0] == s[n] ==> CutBetween(s[..n], next))
  {
    hide MatchLength, HasClause, Text.IsSpace;
    var p, q := MatchIsGreedy(s);
    assert ClausePiece(s[..MatchLength(s)], p, q);
  }

  /** The matches are a prefix of the text, and what is left of it holds no clause punctuation. */
  lemma {:induction false} MatchesCover(s: string)
    ensures var n := Total(Matches(s));
            && n <= |s| && Flatten(Matches(s)) == s[..n] && !HasClause(s[n..])
            && (HasClause(s) ==> n > 0)
  {
    hide MatchLength, HasClause, Text.Flatten;
    if HasClause(s) {
      var m := MatchLength(s);
      MatchesCover(s[m..]);
      var n := Total(Matches(s[m..]));
      assert s[..m + n] == s[..m] + s[m..][..n];
      assert s[m..][n..] == s[m + n..];
      assert Matches(s)[1..] == Matches(s[m..]);
      FlattenCons(Matches(s));
    } else {
      assert s[0..] == s;
      NothingFlat();
    }
  }

  lemma NothingFlat()
    ensures Flatten([]) == ""
  {
  }

  function Total(parts: seq<string>): nat {
    if parts == [] then 0 else |parts[0]| + Total(parts[1..])
  }

  /** The position of the last plain space, or -1. */
  function LastSpace(s: string): (n: int)
    ensures -1 <= n < |s|
    ensures n >= 0 ==> s[n] == ' '
    ensures forall i :: n < i < |s| ==> s[i] != ' '
  {
    if s == [] then -1 else if s[|s| - 1] == ' ' then |s| - 1 else LastSpace(s[..|s| - 1])
  }

  // ----- The chunker as a function -----

  datatype Chunker = Chunker(pending: string, firstChunk: bool, queue: seq<string>)

  const FRESH := Chunker("", true, [])

  /** Blank text is not queued; what is queued is trimmed. */
  function Enqueue(queue: seq<string>, text: string): seq<string> {
    var clean := Trim(text);
    if clean == [] then queue else queue + [clean]
  }

  function EnqueueAll(queue: seq<string>, texts: seq<string>): seq<string> {
    if texts == [] then queue else Enqueue(EnqueueAll(queue, texts[..|texts| - 1]), texts[|texts| - 1])
  }

  function FlushClauses(c: Chunker): Chunker {
    var chunks := Matches(c.pending);
    if chunks == [] then c
    else
      MatchesCover(c.pending);
      Chunker(c.pending[Total(chunks)..], false, EnqueueAll(c.queue, chunks))
  }

  function FlushLong(c: Chunker): Chunker {
    var lastSpace := LastSpace(c.pending);
    if lastSpace > MIN_FORCED_CHARS
    then Chunker(c.pending[lastSpace + 1..], false, Enqueue(c.queue, c.pending[..lastSpace]))
    else c
  }

  function Flush(c: Chunker, force: bool): Chunker {
    var c := FlushClauses(c);
    if force then FlushLong(c) else c
  }

  function Limit(c: Chunker): nat {
    if c.firstChunk then FIRST_CHUNK_CHARS else LATER_CHUNK_CHARS
  }

  function Hear(c: Chunker, delta: string): Chunker {
    var c := c.(pending := c.pending + delta);
    if HasClause(c.pending) then Flush(c, false)
    else if |c.pending| > Limit(c) then Flush(c, true)
    else c
  }

  function HearAll(c: Chunker, deltas: seq<string>): Chunker {
    if deltas == [] then c else Hear(HearAll(c, deltas[..|deltas| - 1]), deltas[|deltas| - 1])
  }

  /** The end of a turn of the model: whatever is pending is spoken. */
  function EndHop(c: Chunker): Chunker {
    c.(pending := "", queue := Enqueue(c.queue, c.pending))
  }

  // ----- Nothing is lost or reordered -----

  /** What has been queued and what is still pending, without white space. */
  function Spoken(c: Chunker): string {
    NonSpace(Flatten(c.queue)) + NonSpace(c.pending)
  }

  lemma EnqueueSpeaks(queue: seq<string>, text: string)
    ensures NonSpace(Flatten(Enqueue(queue, text))) == NonSpace(Flatten(queue)) + NonSpace(text)
  {
    var clean := Trim(text);
    if clean != [] {
      FlattenSnoc(queue, clean);
      NonSpaceAppend(Flatten(queue), clean);
    }
  }

  lemma {:induction false} EnqueueAllSpeaks(queue: seq<string>, texts: seq<string>)
    ensures NonSpace(Flatten(EnqueueAll(queue, texts))) == NonSpace(Flatten(queue)) + NonSpace(Flatten(texts))
  {
    if texts != [] {
      var n := |texts| - 1;
      EnqueueAllSpeaks(queue, texts[..n]);
      EnqueueSpeaks(EnqueueAll(queue, texts[..n]), texts[n]);
      NonSpaceAppend(Flatten(texts[..n]), texts[n]);
    }
  }

  lemma SplitSpeaks(s: string, n: nat)
    requires n <= |s|
    ensures NonSpace(s) == NonSpace(s[..n]) + NonSpace(s[n..])
  {
    assert s == s[..n] + s[n..];
    NonSpaceAppend(s[..n], s[n..]);
  }

  lemma FlushClausesSpeaks(c: Chunker)
    ensures Spoken(FlushClauses(c)) == Spoken(c) && !HasClause(FlushClauses(c).pending)
  {
    hide Text.NonSpace, Text.Flatten, Matches, EnqueueAll, HasClause;
    var chunks := Matches(c.pending);
    MatchesCover(c.pending);
    if chunks != [] {
      EnqueueAllSpeaks(c.queue, chunks);
      SplitSpeaks(c.pending, Total(chunks));
    }
  }

  lemma SpaceFirst(s: string)
    requires s != [] && s[0] == ' '
    ensures NonSpace(s) == NonSpace(s[1..])
  {
  }

  lemma SpaceIsSilent(s: string, n: nat)
    requires n < |s| && s[n] == ' '
    ensures NonSpace(s) == NonSpace(s[..n]) + NonSpace(s[n + 1..])
  {
    hide Text.NonSpace;
    SplitSpeaks(s, n);
    SpaceFirst(s[n..]);
    assert s[n..][1..] == s[n + 1..];
  }

  lemma NoSpaceAfterTheLast(s: string)
    requires LastSpace(s) >= 0
    ensures LastSpace(s[LastSpace(s) + 1..]) == -1
  {
    hide LastSpace;
    var n := LastSpace(s);
    var m := LastSpace(s[n + 1..]);
    if m >= 0 {
      assert s[n + 1 + m] == ' ' by {
        assert s[n + 1..][m] == ' ';
      }
      assert false;
    }
  }

  lemma FlushLongSpeaks(c: Chunker)
    ensures Spoken(FlushLong(c)) == Spoken(c)
    ensures !HasClause(c.pending) ==> !HasClause(FlushLong(c).pending)
    ensures LastSpace(FlushLong(c).pending) <= MIN_FORCED_CHARS
  {
    hide Text.NonSpace, Text.Flatten, Text.Trim, Enqueue, LastSpace;
    var n := LastSpace(c.pending);
    if n > MIN_FORCED_CHARS {
      EnqueueSpeaks(c.queue, c.pending[..n]);
      SpaceIsSilent(c.pending, n);
      NoSpaceAfterTheLast(c.pending);
      var rest := c.pending[n + 1..];
      assert forall i :: 0 <= i < |rest| ==> rest[i] == c.pending[n + 1 + i];
    }
  }

  /** After every delta: the text heard so far is queued or pending, in order; no clause is left
      waiting; and unless the delta ended a clause, the pending text is within its limit or has no
      space to break it at. */
  lemma HearSpeaks(c: Chunker, delta: string)
    ensures var c' := Hear(c, delta);
            && Spoken(c') == Spoken(c) + NonSpace(delta)
            && !HasClause(c'.pending)
            && (!HasClause(c.pending + delta) ==> |c'.pending| <= Limit(c') || LastSpace(c'.pending) <= MIN_FORCED_CHARS)
  {
    hide Text.NonSpace, Text.Flatten, HasClause, FlushClauses, FlushLong, LastSpace;
    var heard := c.(pending := c.pending + delta);
    NonSpaceAppend(c.pending, delta);
    FlushClausesSpeaks(heard);
    FlushLongSpeaks(FlushClauses(heard));
  }

  lemma {:induction false} HearAllSpeaks(deltas: seq<string>)
    ensures Spoken(HearAll(FRESH, deltas)) == NonSpace(Flatten(deltas))
    ensures !HasClause(HearAll(FRESH, deltas).pending)
  {
    if deltas != [] {
      var n := |deltas| - 1;
      HearAllSpeaks(deltas[..n]);
      HearSpeaks(HearAll(FRESH, deltas[..n]), deltas[n]);
      NonSpaceAppend(Flatten(deltas[..n]), deltas[n]);
    }
  }

  /** The whole of what one delta does, where nothing is punctuated: up to 28 characters before the
      first cut, and up to 120 after it, wait for more; longer text is cut at its last space, if that
      is past the twelfth character. `n` is where the last space is, or -1. */
  lemma UnpunctuatedDelta(c: Chunker, delta: string, n: int)
    requires forall i :: 0 <= i < |c.pending + delta| ==> (c.pending + delta)[i] !in ",.!?:;"
    requires var text := c.pending + delta;
             -1 <= n < |text| && (n >= 0 ==> text[n] == ' ') && forall i :: n < i < |text| ==> text[i] != ' '
    ensures var text := c.pending + delta;
            Hear(c, delta) ==
            if |text| <= (if c.firstChunk then 28 else 120) || n <= 12 then Chunker(text, c.firstChunk, c.queue)
            else Chunker(text[n + 1..], false, if Trim(text[..n]) == "" then c.queue else c.queue + [Trim(text[..n])])
  {
    hide Text.Trim, LastSpace, HasClause, Matches;
    NothingToMatch(c.pending + delta);
    LastSpaceIs(c.pending + delta, n);
  }

  lemma LastSpaceIs(s: string, n: int)
    requires -1 <= n < |s| && (n >= 0 ==> s[n] == ' ') && forall i :: n < i < |s| ==> s[i] != ' '
    ensures LastSpace(s) == n
  {
    hide LastSpace;
  }

  lemma NothingToMatch(text: string)
    requires forall i :: 0 <= i < |text| ==> text[i] !in ",.!?:;"
    ensures !HasClause(text) && Matches(text) == []
  {
  }

  /** The whole of what one delta does, where something is punctuated: the clauses so far are queued,
      trimmed, and what follows them, without any punctuation, waits. */
  lemma PunctuatedDelta(c: Chunker, delta: string)
    requires exists i :: 0 <= i < |c.pending + delta| && (c.pending + delta)[i] in ",.!?:;"
    ensures var clauses := Matches(c.pending + delta); var n := Total(clauses);
            && clauses != [] && n <= |c.pending + delta|
            && Hear(c, delta) == Chunker((c.pending + delta)[n..], false, EnqueueAll(c.queue, clauses))
  {
    hide MatchLength, EnqueueAll;
    var i :| 0 <= i < |c.pending + delta| && (c.pending + delta)[i] in ",.!?:;";
    assert IsClause((c.pending + delta)[i]);
    MatchesCover(c.pending + delta);
  }

  /** After every delta, no punctuation is pending. */
  lemma NothingPunctuatedWaits(deltas: seq<string>)
    ensures forall i :: 0 <= i < |HearAll(FRESH, deltas).pending| ==> HearAll(FRESH, deltas).pending[i] !in ",.!?:;"
  {
    hide Hear, HearAll;
    HearAllSpeaks(deltas);
  }

  /** The whole reply is spoken: however the stream cut it into deltas, the queued pieces hold its
      characters other than white space, all of them, in order. */
  lemma WholeReplyIsSpoken(deltas: seq<string>)
    ensures var c := EndHop(HearAll(FRESH, deltas));
            NonSpace(Flatten(c.queue)) == NonSpace(Flatten(deltas)) && c.pending == ""
  {
    HearAllSpeaks(deltas);
    var c := HearAll(FRESH, deltas);
    EnqueueSpeaks(c.queue, c.pending);
  }

  /** Every queued piece is trimmed at both ends and not blank. */
  predicate Clean(queue: seq<string>) {
    forall i :: 0 <= i < |queue| ==>
      queue[i] != [] && !IsSpace(queue[i][0]) && !IsSpace(queue[i][|queue[i]| - 1])
  }

  lemma {:induction false} EnqueueAllClean(queue: seq<string>, texts: seq<string>)
    requires Clean(queue)
    ensures Clean(EnqueueAll(queue, texts))
  {
    hide Text.Trim, Text.IsSpace;
    if texts != [] {
      EnqueueAllClean(queue, texts[..|texts| - 1]);
    }
  }

  lemma HearKeepsClean(c: Chunker, delta: string)
    requires Clean(c.queue)
    ensures Clean(Hear(c, delta).queue)
  {
    hide Text.Trim, Text.IsSpace, Matches, HasClause, LastSpace, EnqueueAll;
    EnqueueAllClean(c.queue, Matches(c.pending + delta));
  }

  lemma {:induction false} QueueIsClean(deltas: seq<string>)
    ensures Clean(HearAll(FRESH, deltas).queue) && Clean(EndHop(HearAll(FRESH, deltas)).queue)
  {
    hide Text.Trim, Text.IsSpace, Hear;
    if deltas != [] {
      var n := |deltas| - 1;
      QueueIsClean(deltas[..n]);
      HearKeepsClean(HearAll(FRESH, deltas[..n]), deltas[n]);
    }
  }

  lemma NothingPending(queue: seq<string>)
    ensures NonSpace("") == "" && NonSpace(Flatten([])) == "" && Flatten(queue) + "" == Flatten(queue)
  {
  }

  lemma EnqueueAllTake(queue: seq<string>, texts: seq<string>, i: nat)
    requires i < |texts|
    ensures EnqueueAll(queue, texts[..0]) == queue
    ensures EnqueueAll(queue, texts[..i + 1]) == Enqueue(EnqueueAll(queue, texts[..i]), texts[i])
    ensures EnqueueAll(queue, texts[..|texts|]) == EnqueueAll(queue, texts)
    ensures Total(texts[i..]) == |texts[i]| + Total(texts[i + 1..])
    ensures Total(texts[0..]) == Total(texts) && Total(texts[|texts|..]) == 0
  {
    hide Enqueue;
    assert texts[..i + 1][..i] == texts[..i];
    assert texts[i..][1..] == texts[i + 1..];
    assert texts[..|texts|] == texts && texts[0..] == texts;
  }

  // ----- The hook -----

  class Voice {
    var pending: string
    var firstChunk: bool
    var queue: seq<string>

    constructor ()
      ensures State() == FRESH
    {
      pending, firstChunk, queue := "", true, [];
    }

    function State(): Chunker reads this {
      Chunker(pending, firstChunk, queue)
    }

    method EnqueueSpeech(text: string)
      modifies this`queue
      ensures queue == Enqueue(old(queue), text)
    {
      var clean := Trim(text);
      if |clean| == 0 {
        return;
      }
      queue := queue + [clean];
    }

    method FlushChunks(force: bool)
      modifies this
      ensures State() == Flush(old(State()), force)
    {
      hide Text.Trim, Text.IsSpace, HasClause, Matches, MatchLength, LastSpace, Text.Flatten, Enqueue, EnqueueAll, Total;
      var chunks := Matches(pending);
      MatchesCover(pending);
      if chunks != [] {
        var consumed := 0;
        EnqueueAllTake(queue, chunks, 0);
        for i := 0 to |chunks|
          invariant pending == old(pending) && firstChunk == old(firstChunk)
          invariant queue == EnqueueAll(old(queue), chunks[..i])
          invariant consumed + Total(chunks[i..]) == Total(chunks)
        {
          EnqueueAllTake(old(queue), chunks, i);
          EnqueueSpeech(chunks[i]);
          consumed := consumed + |chunks[i]|;
        }
        pending := pending[consumed..];
        firstChunk := false;
      }
      if force {
        var lastSpace := LastSpace(pending);
        if lastSpace > MIN_FORCED_CHARS {
          EnqueueSpeech(pending[..lastSpace]);
          pending := pending[lastSpace + 1..];
          firstChunk := false;
        }
      }
    }

    method OnDelta(delta: string)
      modifies this
      ensures State() == Hear(old(State()), delta)
    {
      pending := pending + delta;
      if HasClause(pending) {
        FlushChunks(false);
      } else if |pending| > (if firstChunk then FIRST_CHUNK_CHARS else LATER_CHUNK_CHARS) {
        FlushChunks(true);
      }
    }

    /** One turn of the model: its deltas are spoken as they come, and the rest at the end. */
    method SpeakHop(deltas: seq<string>)
      modifies this
      ensures NonSpace(Flatten(queue)) == NonSpace(Flatten(old(queue))) + NonSpace(Flatten(deltas))
      ensures pending == ""
    {
      hide Text.Trim, Text.IsSpace, Text.NonSpace, Text.Flatten, HasClause, Hear, Enqueue;
      pending := "";
      firstChunk := true;
      NothingPending(queue);
      for i := 0 to |deltas|
        invariant Spoken(State()) == NonSpace(Flatten(old(queue))) + NonSpace(Flatten(deltas[..i]))
      {
        HearSpeaks(State(), deltas[i]);
        FlattenTake(deltas, i);
        NonSpaceAppend(Flatten(deltas[..i]), deltas[i]);
        OnDelta(deltas[i]);
      }
      assert deltas[..|deltas|] == deltas;
      EnqueueSpeaks(queue, pending);
      EnqueueSpeech(pending);
      pending := "";
    }
  }
}
