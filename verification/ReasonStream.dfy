/** The streaming reply: text that arrives in arbitrary chunks is cut into lines, the `data:` lines
    are read for content and tool-call fragments, and the fragments are put together by index. */
module ReasonStream {
  import opened Wrappers
  import opened Text

  // ----- Lines -----

  /** The position of the first newline, or -1. */
  function NewlineAt(s: string): (n: int)
    ensures -1 <= n < |s|
    ensures n >= 0 ==> s[n] == '\n'
    ensures forall i :: 0 <= i < (if n >= 0 then n else |s|) ==> s[i] != '\n'
  {
    if s == [] then -1
    else if s[0] == '\n' then 0
    else
      var n := NewlineAt(s[1..]);
      assert forall i :: 1 <= i < |s| ==> s[i] == s[1..][i - 1];
      if n < 0 then -1 else n + 1
  }

  /** The newline-terminated lines of a text. */
  function Terminated(s: string): seq<string> {
    var n := NewlineAt(s);
    if n < 0 then [] else [s[..n]] + Terminated(s[n + 1..])
  }

  /** What follows the last newline. */
  function Tail(s: string): string {
    var n := NewlineAt(s);
    if n < 0 then s else Tail(s[n + 1..])
  }

  lemma FirstNewlineIs(s: string, n: nat)
    requires n < |s| && s[n] == '\n'
    requires forall i :: 0 <= i < n ==> s[i] != '\n'
    ensures NewlineAt(s) == n
  {
    hide NewlineAt;
  }

  lemma FirstNewlineStays(a: string, b: string)
    requires NewlineAt(a) >= 0
    ensures NewlineAt(a + b) == NewlineAt(a)
  {
    hide NewlineAt;
    FirstNewlineIs(a + b, NewlineAt(a));
  }

  lemma CutLine(buffer: string)
    requires NewlineAt(buffer) >= 0
    ensures var n := NewlineAt(buffer);
            Terminated(buffer) == [buffer[..n]] + Terminated(buffer[n + 1..]) && Tail(buffer) == Tail(buffer[n + 1..])
  {
  }

  lemma NoMoreLines(buffer: string)
    requires NewlineAt(buffer) < 0
    ensures Terminated(buffer) == [] && Tail(buffer) == buffer
  {
  }

  /** Carrying the tail over to the next chunk loses nothing and invents nothing. */
  lemma {:induction false} TerminatedAppend(a: string, b: string)
    ensures Terminated(a + b) == Terminated(a) + Terminated(Tail(a) + b)
    ensures Tail(a + b) == Tail(Tail(a) + b)
    decreases |a|
  {
    hide NewlineAt, Terminated, Tail;
    var n := NewlineAt(a);
    if n >= 0 {
      FirstNewlineStays(a, b);
      CutLine(a);
      CutLine(a + b);
      assert (a + b)[..n] == a[..n] && (a + b)[n + 1..] == a[n + 1..] + b;
      TerminatedAppend(a[n + 1..], b);
    } else {
      NoMoreLines(a);
    }
  }

  lemma {:induction false} TailHasNoNewline(s: string)
    ensures NewlineAt(Tail(s)) < 0
  {
    if NewlineAt(s) >= 0 {
      TailHasNoNewline(s[NewlineAt(s) + 1..]);
    }
  }

  /** A last line that was not terminated is never read. */
  lemma UnterminatedLineIsDropped(text: string, rest: string)
    requires '\n' !in rest
    ensures Terminated(text + rest) == Terminated(text)
  {
    hide NewlineAt, Terminated, Tail;
    TerminatedAppend(text, rest);
    TailHasNoNewline(text);
    NoNewlineIn(Tail(text), rest);
    NoMoreLines(Tail(text) + rest);
    assert Terminated(text) + [] == Terminated(text);
  }

  lemma NoNewlineIn(a: string, b: string)
    requires NewlineAt(a) < 0 && '\n' !in b
    ensures NewlineAt(a + b) < 0
  {
    hide NewlineAt;
    assert forall c | c in a + b :: c in a || c in b;
    assert '\n' !in a + b;
  }

  // ----- What a line says -----

  datatype Fragment = Fragment(index: real, id: string, name: string, argChunk: string)
  datatype Choice = Choice(content: string, fragments: seq<Fragment>)

  const DATA := "data:"
  const DONE := "[DONE]"

  /** The payload of a `data:` line, unless it is blank or the end marker. */
  function PayloadOf(line: string): Option<string> {
    var line := Trim(line);
    if |line| < |DATA| || line[..|DATA|] != DATA then None
    else
      var payload := Trim(line[|DATA|..]);
      if payload == DONE || payload == [] then None else Some(payload)
  }

  /** Everything read so far: the non-empty pieces of content, and all fragments. */
  datatype Heard = Heard(deltas: seq<string>, fragments: seq<Fragment>)

  function Listen(h: Heard, line: string, parse: string -> Choice): Heard {
    match PayloadOf(line)
    case None => h
    case Some(payload) =>
      var choice := parse(payload);
      Heard(if choice.content == [] then h.deltas else h.deltas + [choice.content], h.fragments + choice.fragments)
  }

  function ListenAll(lines: seq<string>, parse: string -> Choice): Heard {
    if lines == [] then Heard([], []) else Listen(ListenAll(lines[..|lines| - 1], parse), lines[|lines| - 1], parse)
  }

  /** Reading is line by line: what later lines say does not depend on earlier ones. */
  lemma {:induction false} ListenAppend(a: seq<string>, b: seq<string>, parse: string -> Choice)
    ensures var all, first, second := ListenAll(a + b, parse), ListenAll(a, parse), ListenAll(b, parse);
            all.deltas == first.deltas + second.deltas && all.fragments == first.fragments + second.fragments
  {
    hide PayloadOf;
    if b == [] {
      assert a + b == a;
    } else {
      var n := |b| - 1;
      assert (a + b)[..|a + b| - 1] == a + b[..n];
      ListenAppend(a, b[..n], parse);
    }
  }

  // ----- Tool calls -----

  datatype Call = Call(id: string, name: string, arguments: string)

  function AddFragment(calls: map<real, Call>, f: Fragment): map<real, Call> {
    if f.index !in calls then calls[f.index := Call(f.id, f.name, f.argChunk)]
    else
      var c := calls[f.index];
      calls[f.index := Call(if c.id == [] then f.id else c.id, if c.name == [] then f.name else c.name,
                            c.arguments + f.argChunk)]
  }

  function Assemble(fs: seq<Fragment>): map<real, Call> {
    if fs == [] then map[] else AddFragment(Assemble(fs[..|fs| - 1]), fs[|fs| - 1])
  }

  function Indices(fs: seq<Fragment>): set<real> {
    set i | 0 <= i < |fs| :: fs[i].index
  }

  /** The fragments of one index, in order. */
  function OfIndex(fs: seq<Fragment>, index: real): seq<Fragment> {
    if fs == [] then []
    else OfIndex(fs[..|fs| - 1], index) + if fs[|fs| - 1].index == index then [fs[|fs| - 1]] else []
  }

  /** The first non-empty text of a list, or the empty text. */
  function FirstNonEmpty(texts: seq<string>): string {
    if texts == [] then "" else if texts[0] != [] then texts[0] else FirstNonEmpty(texts[1..])
  }

  function Ids(fs: seq<Fragment>): seq<string> {
    seq(|fs|, i requires 0 <= i < |fs| => fs[i].id)
  }

  function Names(fs: seq<Fragment>): seq<string> {
    seq(|fs|, i requires 0 <= i < |fs| => fs[i].name)
  }

  function ArgChunks(fs: seq<Fragment>): seq<string> {
    seq(|fs|, i requires 0 <= i < |fs| => fs[i].argChunk)
  }

  /** The call of one index: first non-empty id and name, and all argument pieces in order. */
  function CallOf(fs: seq<Fragment>): Call {
    Call(FirstNonEmpty(Ids(fs)), FirstNonEmpty(Names(fs)), Flatten(ArgChunks(fs)))
  }

  lemma {:induction false} FirstNonEmptySnoc(texts: seq<string>, last: string)
    ensures FirstNonEmpty(texts + [last]) == if FirstNonEmpty(texts) == [] then last else FirstNonEmpty(texts)
  {
    if texts != [] {
      assert (texts + [last])[1..] == texts[1..] + [last];
      FirstNonEmptySnoc(texts[1..], last);
    }
  }

  lemma CallOfSnoc(fs: seq<Fragment>, f: Fragment)
    ensures var c := CallOf(fs);
            CallOf(fs + [f]) == Call(if c.id == [] then f.id else c.id, if c.name == [] then f.name else c.name,
                                     c.arguments + f.argChunk)
  {
    assert Ids(fs + [f]) == Ids(fs) + [f.id];
    assert Names(fs + [f]) == Names(fs) + [f.name];
    assert ArgChunks(fs + [f]) == ArgChunks(fs) + [f.argChunk];
    FirstNonEmptySnoc(Ids(fs), f.id);
    FirstNonEmptySnoc(Names(fs), f.name);
    FlattenSnoc(ArgChunks(fs), f.argChunk);
  }

  /** Assembling fragment by fragment gives an index the call made of its own fragments. */
  lemma {:induction false} AssembledCall(fs: seq<Fragment>, index: real)
    ensures index in Assemble(fs) <==> OfIndex(fs, index) != []
    ensures index in Assemble(fs) ==> Assemble(fs)[index] == CallOf(OfIndex(fs, index))
  {
    hide FirstNonEmpty, Text.Flatten;
    if fs != [] {
      var n := |fs| - 1;
      AssembledCall(fs[..n], index);
      if fs[n].index == index {
        CallOfSnoc(OfIndex(fs[..n], index), fs[n]);
        EmptyCall();
        assert "" + fs[n].argChunk == fs[n].argChunk;
      } else {
        assert OfIndex(fs, index) == OfIndex(fs[..n], index);
      }
    }
  }

  lemma EmptyCall()
    ensures CallOf([]) == Call("", "", "")
  {
    assert Ids([]) == [] && Names([]) == [] && ArgChunks([]) == [];
  }

  lemma IndicesSnoc(fs: seq<Fragment>, f: Fragment)
    ensures Indices(fs + [f]) == Indices(fs) + {f.index}
  {
    var all := fs + [f];
    forall index
      ensures index in Indices(all) <==> index in Indices(fs) || index == f.index
    {
      if index in Indices(fs) {
        var i :| 0 <= i < |fs| && fs[i].index == index;
        assert all[i].index == index;
      }
      assert all[|fs|].index == f.index;
    }
  }

  lemma {:induction false} AssembledIndices(fs: seq<Fragment>)
    ensures Assemble(fs).Keys == Indices(fs)
  {
    if fs != [] {
      var n := |fs| - 1;
      AssembledIndices(fs[..n]);
      IndicesSnoc(fs[..n], fs[n]);
      assert fs == fs[..n] + [fs[n]];
    }
  }

  // ----- The reply -----

  predicate Ascending(order: seq<real>) {
    forall i, j :: 0 <= i < j < |order| ==> order[i] < order[j]
  }

  /** `order` lists the indices once each, smallest first. */
  ghost predicate Lists(order: seq<real>, indices: set<real>) {
    Ascending(order) && forall x :: x in order <==> x in indices
  }

  lemma {:induction false} ListingIsUnique(a: seq<real>, b: seq<real>, indices: set<real>)
    requires Lists(a, indices) && Lists(b, indices)
    ensures a == b
  {
    if a != [] {
      assert a[0] in a;
    }
    if b != [] {
      assert b[0] in b;
    }
    if a != [] && b != [] {
      assert a[0] == b[0] by {
        var i :| 0 <= i < |b| && b[i] == a[0];
        var j :| 0 <= j < |a| && a[j] == b[0];
      }
      RestIsListed(a, indices);
      RestIsListed(b, indices);
      ListingIsUnique(a[1..], b[1..], indices - {a[0]});
      assert a == [a[0]] + a[1..] && b == [b[0]] + b[1..];
    }
  }

  lemma RestIsListed(order: seq<real>, indices: set<real>)
    requires Lists(order, indices) && order != []
    ensures Lists(order[1..], indices - {order[0]})
  {
    forall x
      ensures x in order[1..] <==> x in indices - {order[0]}
    {
      if x in order && x != order[0] {
        var i :| 0 <= i < |order| && order[i] == x;
        assert order[1..][i - 1] == x;
      }
      if x in order[1..] {
        var i :| 0 <= i < |order| - 1 && order[1..][i] == x;
        assert order[i + 1] == x;
      }
    }
  }

  /** Blank arguments are sent on as an empty object. */
  function Finished(c: Call): Call {
    if Trim(c.arguments) == [] then c.(arguments := "{}") else c
  }

  datatype Reply = Reply(deltas: seq<string>, text: string, calls: seq<Call>)

  /** The reply to a whole text: the content of its terminated `data:` lines, and one finished call
      for each distinct index, in increasing order of the indices. */
  ghost predicate Answers(text: string, parse: string -> Choice, reply: Reply) {
    exists order :: AnswersInOrder(text, parse, reply, order)
  }

  ghost predicate AnswersInOrder(text: string, parse: string -> Choice, reply: Reply, order: seq<real>) {
    var heard := ListenAll(Terminated(text), parse);
    && reply.deltas == heard.deltas
    && reply.text == Trim(Flatten(heard.deltas))
    && Lists(order, Indices(heard.fragments))
    && |reply.calls| == |order|
    && forall k :: 0 <= k < |order| ==> reply.calls[k] == Finished(CallOf(OfIndex(heard.fragments, order[k])))
  }

  /** A text has one reply: with `Stream` below, the way the text was cut into chunks cannot matter. */
  lemma ReplyIsDetermined(text: string, parse: string -> Choice, a: Reply, b: Reply)
    requires Answers(text, parse, a) && Answers(text, parse, b)
    ensures a == b
  {
    hide ListenAll, CallOf, OfIndex, Lists, Text.Trim, Text.Flatten;
    var orderA :| AnswersInOrder(text, parse, a, orderA);
    var orderB :| AnswersInOrder(text, parse, b, orderB);
    ListingIsUnique(orderA, orderB, Indices(ListenAll(Terminated(text), parse).fragments));
    assert a.calls == b.calls;
  }

  /** The smallest number of a list. */
  function Least(xs: seq<real>): (least: real)
    requires xs != []
    ensures least in xs && forall x | x in xs :: least <= x
  {
    if |xs| == 1 then xs[0]
    else
      var later := Least(xs[1..]);
      assert xs == [xs[0]] + xs[1..];
      if xs[0] <= later then xs[0] else later
  }

  lemma Pick<T>(s: set<T>) returns (x: T)
    requires s != {}
    ensures x in s
  {
    x :| x in s;
  }

  lemma {:induction false} ListOf(s: set<real>) returns (xs: seq<real>)
    ensures forall x :: x in xs <==> x in s
    decreases |s|
  {
    if s == {} {
      xs := [];
    } else {
      var x := Pick(s);
      var rest := ListOf(s - {x});
      xs := [x] + rest;
    }
  }

  lemma LeastExists(s: set<real>)
    requires s != {}
    ensures exists least :: least in s && forall y | y in s :: least <= y
  {
    hide Least;
    var xs := ListOf(s);
    var x := Pick(s);
    assert x in xs;
    var least := Least(xs);
    assert least in s;
  }

  // ----- What a text says, spelled out -----

  /** The reply made of these pieces of content and these fragments: a call for each index, in
      increasing order, with an empty object for blank arguments. */
  ghost predicate Says(reply: Reply, deltas: seq<string>, fragments: seq<Fragment>) {
    && reply.deltas == deltas
    && reply.text == Trim(Flatten(deltas))
    && exists order :: CallsInOrder(reply.calls, fragments, order)
  }

  ghost predicate CallsInOrder(calls: seq<Call>, fragments: seq<Fragment>, order: seq<real>) {
    && Lists(order, Indices(fragments))
    && |calls| == |order|
    && forall k :: 0 <= k < |order| ==>
         var call := CallOf(OfIndex(fragments, order[k]));
         calls[k] == if Trim(call.arguments) == "" then Call(call.id, call.name, "{}") else call
  }

  /** The content and the fragments that a text is read for. */
  ghost predicate ReadsAs(text: string, parse: string -> Choice, deltas: seq<string>, fragments: seq<Fragment>) {
    ListenAll(Terminated(text), parse) == Heard(deltas, fragments)
  }

  lemma AnswersSay(text: string, parse: string -> Choice, reply: Reply, deltas: seq<string>, fragments: seq<Fragment>)
    requires ReadsAs(text, parse, deltas, fragments)
    ensures Answers(text, parse, reply) <==> Says(reply, deltas, fragments)
  {
    hide ListenAll, Lists, CallOf, OfIndex, Text.Trim, Text.Flatten;
    if Answers(text, parse, reply) {
      var order :| AnswersInOrder(text, parse, reply, order);
      assert CallsInOrder(reply.calls, fragments, order);
    }
    if Says(reply, deltas, fragments) {
      var order :| CallsInOrder(reply.calls, fragments, order);
      assert AnswersInOrder(text, parse, reply, order);
    }
  }

  /** A `data:` line is read for its payload, unless that is blank or the end marker. */
  lemma DataLineSays(p: string, parse: string -> Choice, reply: Reply)
    requires '\n' !in p && Answers("data:" + p + "\n", parse, reply)
    ensures if Trim(p) == "" || Trim(p) == "[DONE]" then Says(reply, [], [])
            else
              var choice := parse(Trim(p));
              Says(reply, if choice.content == "" then [] else [choice.content], choice.fragments)
  {
    hide Says, Answers, Text.Trim;
    DataLineReads(p, parse);
    if Trim(p) == "" || Trim(p) == "[DONE]" {
      AnswersSay("data:" + p + "\n", parse, reply, [], []);
    } else {
      var choice := parse(Trim(p));
      AnswersSay("data:" + p + "\n", parse, reply, if choice.content == "" then [] else [choice.content], choice.fragments);
    }
  }

  /** Any other line says nothing. */
  lemma OtherLineSaysNothing(line: string, parse: string -> Choice, reply: Reply)
    requires '\n' !in line && !("data:" <= Trim(line)) && Answers(line + "\n", parse, reply)
    ensures Says(reply, [], [])
  {
    hide Says, Answers, Text.Trim;
    OneLine(line, parse);
    AnswersSay(line + "\n", parse, reply, [], []);
  }

  /** Texts add up, line by line: what was said and what is said next. */
  lemma TextsAddUp(a: string, b: string, parse: string -> Choice, deltas: seq<string>, fragments: seq<Fragment>,
                   deltas': seq<string>, fragments': seq<Fragment>)
    requires a == "" || a[|a| - 1] == '\n'
    requires ReadsAs(a, parse, deltas, fragments) && ReadsAs(b, parse, deltas', fragments')
    ensures ReadsAs(a + b, parse, deltas + deltas', fragments + fragments')
  {
    hide ListenAll, Terminated, Tail;
    TerminatedAppend(a, b);
    NoTail(a);
    assert "" + b == b;
    ListenAppend(Terminated(a), Terminated(b), parse);
  }

  lemma {:induction false} NoTail(a: string)
    requires a == "" || a[|a| - 1] == '\n'
    ensures Tail(a) == ""
  {
    var n := NewlineAt(a);
    if n >= 0 {
      NoTail(a[n + 1..]);
    }
  }

  lemma OneLine(line: string, parse: string -> Choice)
    requires '\n' !in line
    ensures Terminated(line + "\n") == [line]
    ensures ListenAll([line], parse) == Listen(Heard([], []), line, parse)
    ensures !("data:" <= Trim(line)) ==> ReadsAs(line + "\n", parse, [], [])
  {
    hide NewlineAt, Text.Trim;
    FirstNewlineIs(line + "\n", |line|);
    assert (line + "\n")[..|line|] == line && (line + "\n")[|line| + 1..] == "";
    NoMoreLines("");
    assert [line] + [] == [line];
    assert [line][..0] == [];
  }

  lemma DataLineReads(p: string, parse: string -> Choice)
    requires '\n' !in p
    ensures if Trim(p) == "" || Trim(p) == "[DONE]" then ReadsAs("data:" + p + "\n", parse, [], [])
            else
              var choice := parse(Trim(p));
              ReadsAs("data:" + p + "\n", parse, if choice.content == "" then [] else [choice.content], choice.fragments)
  {
    hide Text.Trim, Terminated, PayloadOf;
    OneLine("data:" + p, parse);
    PayloadOfData(p);
  }

  lemma PayloadOfData(p: string)
    ensures PayloadOf("data:" + p) == if Trim(p) == "" || Trim(p) == "[DONE]" then None else Some(Trim(p))
  {
    hide Text.NonSpace, Text.TrimEnd;
    var line := "data:" + p;
    assert TrimStart(line) == line;
    TrimEndAppend("data:", p);
    assert Trim(line) == "data:" + TrimEnd(p);
    assert Trim(line)[..5] == "data:" && Trim(line)[5..] == TrimEnd(p);
    TrimTrimmedEnd(p);
  }

  /** What the call of one index is made of. */
  lemma CallMeans(fs: seq<Fragment>)
    ensures var call := CallOf(fs);
            && call.arguments == Flatten(ArgChunks(fs))
            && (call.id == "" ==> forall i :: 0 <= i < |fs| ==> fs[i].id == "")
            && (call.id != "" ==> exists i | 0 <= i < |fs| :: fs[i].id == call.id && forall j :: 0 <= j < i ==> fs[j].id == "")
            && (call.name == "" ==> forall i :: 0 <= i < |fs| ==> fs[i].name == "")
            && (call.name != "" ==>
                  exists i | 0 <= i < |fs| :: fs[i].name == call.name && forall j :: 0 <= j < i ==> fs[j].name == "")
  {
    hide FirstNonEmpty;
    FirstNonEmptyMeans(Ids(fs));
    FirstNonEmptyMeans(Names(fs));
    assert forall i | 0 <= i < |fs| :: Ids(fs)[i] == fs[i].id && Names(fs)[i] == fs[i].name;
  }

  lemma {:induction false} FirstNonEmptyMeans(texts: seq<string>)
    ensures var first := FirstNonEmpty(texts);
            && (first == "" ==> forall i :: 0 <= i < |texts| ==> texts[i] == "")
            && (first != "" ==> exists i | 0 <= i < |texts| :: texts[i] == first && forall j :: 0 <= j < i ==> texts[j] == "")
  {
    if texts != [] {
      FirstNonEmptyMeans(texts[1..]);
      if texts[0] == "" && FirstNonEmpty(texts) != "" {
        var i :| 0 <= i < |texts| - 1 && texts[1..][i] == FirstNonEmpty(texts) && forall j :: 0 <= j < i ==> texts[1..][j] == "";
        assert texts[i + 1] == FirstNonEmpty(texts);
        assert forall j | 0 < j < i + 1 :: texts[j] == texts[1..][j - 1];
      } else if texts[0] != "" {
        assert texts[0] == FirstNonEmpty(texts);
      } else {
        assert forall j | 0 < j < |texts| :: texts[j] == texts[1..][j - 1];
      }
    }
  }

  /** The entries of the call map in increasing order of their index. */
  method SortedIndices(calls: map<real, Call>) returns (order: seq<real>)
    ensures Lists(order, calls.Keys)
  {
    order := [];
    var rest := calls.Keys;
    while rest != {}
      invariant rest <= calls.Keys
      invariant Ascending(order)
      invariant forall x :: x in order <==> x in calls.Keys - rest
      invariant forall x, y | x in order && y in rest :: x < y
      decreases |rest|
    {
      LeastExists(rest);
      var least :| least in rest && forall y | y in rest :: least <= y;
      assert forall i :: 0 <= i < |order| ==> order[i] in order;
      order := order + [least];
      rest := rest - {least};
    }
  }

  lemma NothingYet(parse: string -> Choice)
    ensures Flatten([]) == "" && Terminated("") == [] && Tail("") == ""
    ensures ListenAll([], parse) == Heard([], []) && Assemble([]) == map[]
  {
  }

  /** The lines of a carried tail and a new chunk continue the lines read before. */
  lemma ChunkContinues(chunks: seq<string>, c: nat)
    requires c < |chunks|
    ensures var before, read := Flatten(chunks[..c]), Tail(Flatten(chunks[..c])) + chunks[c];
            && Terminated(Flatten(chunks[..c + 1])) == Terminated(before) + Terminated(read)
            && Tail(Flatten(chunks[..c + 1])) == Tail(read)
  {
    FlattenTake(chunks, c);
    TerminatedAppend(Flatten(chunks[..c]), chunks[c]);
  }

  /** What a line is worth reading for. */
  method ReadLine(line: string) returns (payload: Option<string>)
    ensures payload == PayloadOf(line)
  {
    hide Text.Trim;
    var trimmed := Trim(line);
    if !("data:" <= trimmed) {
      return None;
    }
    var text := Trim(trimmed[5..]);
    if text == "[DONE]" {
      return None;
    }
    if |text| == 0 {
      return None;
    }
    payload := Some(text);
  }

  /** The loop over chunks with a carried buffer. */
  method Stream(chunks: seq<string>, parse: string -> Choice) returns (reply: Reply)
    ensures Answers(Flatten(chunks), parse, reply)
  {
    hide NewlineAt, Terminated, Tail, PayloadOf, Text.Trim, Text.Flatten, Assemble, ListenAll, CallOf, OfIndex, Indices;
    var callsByIndex: map<real, Call> := map[];
    var buffer, full := "", "";
    var deltas: seq<string> := [];
    ghost var heard := Heard([], []);
    NothingYet(parse);
    assert chunks[..0] == [];
    for c := 0 to |chunks|
      invariant buffer == Tail(Flatten(chunks[..c]))
      invariant heard == ListenAll(Terminated(Flatten(chunks[..c])), parse)
      invariant deltas == heard.deltas && full == Flatten(deltas) && callsByIndex == Assemble(heard.fragments)
    {
      ghost var before := Terminated(Flatten(chunks[..c]));
      ChunkContinues(chunks, c);
      buffer := buffer + chunks[c];
      ghost var read := buffer;
      ghost var done: seq<string> := [];
      assert before + done == before;
      var newlineAt := NewlineAt(buffer);
      while newlineAt >= 0
        invariant newlineAt == NewlineAt(buffer)
        invariant Terminated(read) == done + Terminated(buffer) && Tail(read) == Tail(buffer)
        invariant heard == ListenAll(before + done, parse)
        invariant deltas == heard.deltas && full == Flatten(deltas) && callsByIndex == Assemble(heard.fragments)
        decreases |buffer|
      {
        var line := buffer[..newlineAt];
        CutLine(buffer);
        ListenSnoc(before, done, line, parse);
        ghost var earlier := heard.fragments;
        heard := Listen(heard, line, parse);
        done := done + [line];
        buffer := buffer[newlineAt + 1..];
        newlineAt := NewlineAt(buffer);
        var payload := ReadLine(line);
        if payload.None? {
          continue;
        }
        var choice := parse(payload.value);
        if |choice.content| > 0 {
          FlattenSnoc(deltas, choice.content);
          full := full + choice.content;
          deltas := deltas + [choice.content];
        }
        callsByIndex := AddAll(callsByIndex, choice.fragments, earlier);
      }
      NoMoreLines(buffer);
      assert done + [] == done;
    }
    assert chunks[..|chunks|] == chunks;
    AssembledIndices(heard.fragments);
    var ordered := SortedIndices(callsByIndex);
    var calls := FinishAll(callsByIndex, ordered, heard.fragments);
    reply := Reply(deltas, Trim(full), calls);
    assert AnswersInOrder(Flatten(chunks), parse, reply, ordered);
  }

  /** The calls in the given order, with blank arguments replaced. */
  method FinishAll(callsByIndex: map<real, Call>, order: seq<real>, ghost fs: seq<Fragment>) returns (calls: seq<Call>)
    requires callsByIndex == Assemble(fs) && forall x | x in order :: x in callsByIndex
    ensures |calls| == |order|
    ensures forall k :: 0 <= k < |order| ==> calls[k] == Finished(CallOf(OfIndex(fs, order[k])))
  {
    hide Assemble, CallOf, OfIndex, Text.Trim;
    calls := [];
    for k := 0 to |order|
      invariant |calls| == k
      invariant forall j :: 0 <= j < k ==> calls[j] == Finished(CallOf(OfIndex(fs, order[j])))
    {
      assert order[k] in order;
      AssembledCall(fs, order[k]);
      var call := callsByIndex[order[k]];
      calls := calls + [if |Trim(call.arguments)| > 0 then call else call.(arguments := "{}")];
    }
  }

  lemma ListenSnoc(before: seq<string>, done: seq<string>, line: string, parse: string -> Choice)
    ensures ListenAll(before + (done + [line]), parse) == Listen(ListenAll(before + done, parse), line, parse)
  {
    assert (before + (done + [line]))[..|before + done|] == before + done;
  }

  method AddAll(calls: map<real, Call>, fragments: seq<Fragment>, ghost before: seq<Fragment>)
    returns (after: map<real, Call>)
    requires calls == Assemble(before)
    ensures after == Assemble(before + fragments)
  {
    hide Assemble;
    after := calls;
    assert before + fragments[..0] == before;
    for i := 0 to |fragments|
      invariant after == Assemble(before + fragments[..i])
    {
      AssembleSnoc(before, fragments, i);
      after := AddOne(after, fragments[i]);
    }
    assert fragments[..|fragments|] == fragments;
  }

  lemma AssembleSnoc(before: seq<Fragment>, fragments: seq<Fragment>, i: nat)
    requires i < |fragments|
    ensures Assemble(before + fragments[..i + 1]) == AddFragment(Assemble(before + fragments[..i]), fragments[i])
  {
    var all := before + fragments[..i + 1];
    assert all[..|all| - 1] == before + fragments[..i] && all[|all| - 1] == fragments[i];
  }

  /** One fragment, kept as the first of its index or folded into the call already there. */
  method AddOne(calls: map<real, Call>, f: Fragment) returns (after: map<real, Call>)
    ensures after == AddFragment(calls, f)
  {
    if f.index !in calls {
      return calls[f.index := Call(f.id, f.name, f.argChunk)];
    }
    var existing := calls[f.index];
    if |existing.id| == 0 && |f.id| > 0 {
      existing := existing.(id := f.id);
    }
    if |existing.name| == 0 && |f.name| > 0 {
      existing := existing.(name := f.name);
    }
    after := calls[f.index := existing.(arguments := existing.arguments + f.argChunk)];
  }
}
