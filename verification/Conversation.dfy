/** One hop of a spoken turn: the streamed reply and what is spoken of it. */
module Conversation {
  import opened Text
  import opened ReasonStream
  import opened Speech

  /** The reply's text and what is queued agree but for white space, and the queue stays empty
      exactly when the reply has no text, which is when the apology is spoken instead. */
  lemma SpeechFollowsTheReply(text: string, parse: string -> Choice, reply: Reply)
    requires Answers(text, parse, reply)
    ensures var queue := EndHop(HearAll(FRESH, reply.deltas)).queue;
            && NonSpace(Flatten(queue)) == NonSpace(reply.text)
            && (queue == [] <==> reply.text == "")
  {
    hide Hear, HearAll, EndHop, Trim, ListenAll, OfIndex;
    var queue := EndHop(HearAll(FRESH, reply.deltas)).queue;
    WholeReplyIsSpoken(reply.deltas);
    QueueIsClean(reply.deltas);
    if reply.text != "" {
      assert NonSpace(reply.text)[0] == reply.text[0];
    }
    if queue != [] {
      var n := |queue[0]| - 1;
      assert queue[0] == queue[0][..n] + [queue[0][n]];
      NonSpaceAppend(queue[0][..n], [queue[0][n]]);
      FlattenCons(queue);
      NonSpaceAppend(queue[0], Flatten(queue[1..]));
    }
  }

  /** How the response is cut into chunks cannot be heard. */
  lemma ChunkingIsInaudible(a: seq<string>, b: seq<string>, parse: string -> Choice, first: Reply, second: Reply)
    requires Flatten(a) == Flatten(b)
    requires Answers(Flatten(a), parse, first) && Answers(Flatten(b), parse, second)
    ensures first == second
    ensures EndHop(HearAll(FRESH, first.deltas)).queue == EndHop(HearAll(FRESH, second.deltas)).queue
  {
    hide Answers;
    ReplyIsDetermined(Flatten(a), parse, first, second);
  }

  method Hop(voice: Voice, chunks: seq<string>, parse: string -> Choice) returns (reply: Reply)
    modifies voice
    ensures Answers(Flatten(chunks), parse, reply)
    ensures NonSpace(Flatten(voice.queue)) == NonSpace(Flatten(old(voice.queue))) + NonSpace(reply.text)
    ensures voice.pending == ""
  {
    hide ListenAll, OfIndex, Trim;
    reply := Stream(chunks, parse);
    voice.SpeakHop(reply.deltas);
  }

  // ----- A turn -----

  const MAX_TOOL_HOPS := 4
  const APOLOGY := "Sorry, I did not catch that."

  function Texts(replies: seq<Reply>): seq<string> {
    seq(|replies|, i requires 0 <= i < |replies| => replies[i].text)
  }

  /** The replies of a turn: hop after hop while tools are called, at most `MAX_TOOL_HOPS`. */
  ghost predicate Hops(responses: seq<seq<string>>, parse: string -> Choice, replies: seq<Reply>) {
    && |replies| <= |responses|
    && forall i | 0 <= i < |replies| ::
         && Answers(Flatten(responses[i]), parse, replies[i])
         && (i < |replies| - 1 ==> replies[i].calls != [])
  }

  /** What a turn that had these replies speaks: all of them, and the apology if the last has no text. */
  function TurnSpeaks(replies: seq<Reply>): string
    requires replies != []
  {
    NonSpace(Flatten(Texts(replies))) +
    if replies[|replies| - 1].text == "" then NonSpace("Sorry, I did not catch that.") else ""
  }

  lemma TextsSnoc(replies: seq<Reply>, reply: Reply)
    ensures NonSpace(Flatten(Texts(replies + [reply]))) == NonSpace(Flatten(Texts(replies))) + NonSpace(reply.text)
  {
    hide NonSpace, Flatten;
    assert Texts(replies + [reply]) == Texts(replies) + [reply.text];
    FlattenSnoc(Texts(replies), reply.text);
    NonSpaceAppend(Flatten(Texts(replies)), reply.text);
  }

  /** Trimming keeps a text that is not empty, so the apology is heard when it is due. */
  lemma ApologySpeaks(queue: seq<string>)
    ensures NonSpace(Flatten(Enqueue(queue, APOLOGY))) == NonSpace(Flatten(queue)) + NonSpace(APOLOGY)
  {
    EnqueueSpeaks(queue, APOLOGY);
  }

  /** The tool loop of a turn. `responses` is what the model streams, hop after hop; what the tools
      answer is part of what it streams next. */
  method RunCommand(voice: Voice, responses: seq<seq<string>>, parse: string -> Choice)
    returns (lastText: string, ghost replies: seq<Reply>)
    requires |responses| >= MAX_TOOL_HOPS
    modifies voice
    ensures 0 < |replies| <= 4 && Hops(responses, parse, replies)
    ensures |replies| < 4 ==> replies[|replies| - 1].calls == []
    ensures lastText == replies[|replies| - 1].text
    ensures NonSpace(Flatten(voice.queue)) == TurnSpeaks(replies)
  {
    hide NonSpace, Flatten, Answers, Enqueue;
    voice.queue := [];
    lastText, replies := "", [];
    NothingSaid();
    for hop := 0 to MAX_TOOL_HOPS
      invariant |replies| == hop && Hops(responses, parse, replies)
      invariant forall i | 0 <= i < hop :: replies[i].calls != []
      invariant hop > 0 ==> lastText == replies[hop - 1].text
      invariant NonSpace(Flatten(voice.queue)) == NonSpace(Flatten(Texts(replies)))
    {
      var result := Hop(voice, responses[hop], parse);
      TextsSnoc(replies, result);
      replies := replies + [result];
      lastText := result.text;
      if |result.calls| == 0 {
        break;
      }
    }
    if |lastText| == 0 {
      ApologySpeaks(voice.queue);
      voice.EnqueueSpeech(APOLOGY);
    }
  }

  lemma NothingSaid()
    ensures NonSpace(Flatten([])) == NonSpace(Flatten(Texts([])))
  {
    assert Texts([]) == [];
  }
}
