/** How the Gemini adapter finds the name of the call a tool result answers, although it only knows ids. */
module Gemini {
  import opened Vocabulary
  import opened Text
  import opened AgentTurns

  datatype Part =
    | TextPart(text: string)
    | FunctionCall(name: string, arguments: string)
    | FunctionResponse(name: string, isError: bool, content: string)

  datatype Turn = Turn(role: string, parts: seq<Part>)

  type Names = map<string, string>

  datatype Built = Built(system: seq<string>, contents: seq<Turn>, names: Names)

  const NOTHING: Built := Built([], [], map[])

  // ---- outgoing: messages to contents ---------------------------------------------------

  function Learn(names: Names, calls: seq<ToolCall>): Names {
    if |calls| == 0 then names
    else Learn(names, calls[..|calls| - 1])[calls[|calls| - 1].id := calls[|calls| - 1].name]
  }

  function NameOf(names: Names, id: string): string { if id in names then names[id] else id }

  function TextParts(content: Option<string>): seq<Part> {
    if content == None || content.value == "" then [] else [TextPart(content.value)]
  }

  function CallParts(calls: seq<ToolCall>): seq<Part> {
    seq(|calls|, i requires 0 <= i < |calls| => FunctionCall(calls[i].name, calls[i].arguments))
  }

  function ContentOr(content: Option<string>): string { if content == None then "" else content.value }

  /** What an assistant message turns into. */
  function ModelTurn(m: Message): Turn {
    Turn("model", if m.toolCalls != [] then TextParts(m.content) + CallParts(m.toolCalls)
                  else [TextPart(ContentOr(m.content))])
  }

  function ResponseTurn(name: string, result: ToolResult): Turn {
    Turn("user", [FunctionResponse(name, result.isError, result.content)])
  }

  function AddMessage(b: Built, m: Message): Built {
    if m.role == System then
      if ContentOr(m.content) == "" then b else b.(system := b.system + [m.content.value])
    else if m.role == Role.Tool && m.toolResult.Some? then
      var result := m.toolResult.value;
      b.(contents := b.contents + [ResponseTurn(NameOf(b.names, result.callId), result)])
    else if m.toolCalls != [] then
      b.(contents := b.contents + [ModelTurn(m)], names := Learn(b.names, m.toolCalls))
    else if m.role == Assistant then
      b.(contents := b.contents + [ModelTurn(m)])
    else
      b.(contents := b.contents + [Turn("user", [TextPart(ContentOr(m.content))])])
  }

  function AddAll(b: Built, messages: seq<Message>): Built {
    if |messages| == 0 then b else AddMessage(AddAll(b, messages[..|messages| - 1]), messages[|messages| - 1])
  }

  // ---- what the contents must be --------------------------------------------------------

  /** This message can introduce calls. */
  predicate Calling(m: Message) { m.role != System && !(m.role == Role.Tool && m.toolResult.Some?) }

  /** The name of the last of the first n calls with this id. */
  function LastNamed(calls: seq<ToolCall>, n: nat, id: string): Option<string>
    requires n <= |calls|
  {
    if n == 0 then None
    else if calls[n - 1].id == id then Some(calls[n - 1].name)
    else LastNamed(calls, n - 1, id)
  }

  /** The name of the last call with this id among the first n messages, searched backwards; the id if there is none. */
  function NameBefore(messages: seq<Message>, n: nat, id: string): string
    requires n <= |messages|
  {
    if n == 0 then id
    else
      var m := messages[n - 1];
      var here := if Calling(m) then LastNamed(m.toolCalls, |m.toolCalls|, id) else None;
      if here.Some? then here.value else NameBefore(messages, n - 1, id)
  }

  /** The texts of the system messages among the first n, empty ones left out. */
  function SystemTexts(messages: seq<Message>, n: nat): seq<string>
    requires n <= |messages|
  {
    if n == 0 then []
    else
      var m := messages[n - 1];
      SystemTexts(messages, n - 1)
      + if m.role == System && m.content.Some? && m.content.value != "" then [m.content.value] else []
  }

  /** How many of the first n messages are not system messages. */
  function Spoken(messages: seq<Message>, n: nat): nat
    requires n <= |messages|
  {
    if n == 0 then 0 else Spoken(messages, n - 1) + if messages[n - 1].role == System then 0 else 1
  }

  /** The content a message turns into, `name` being the name of the call it answers, if any: a result becomes the
      user's response with its error flag and text; calls become the model's, after its text if there is any;
      any other message becomes its text. */
  predicate RightContent(m: Message, name: string, content: Turn) {
    if m.role == Role.Tool && m.toolResult.Some? then
      var result := m.toolResult.value;
      content.role == "user" && content.parts == [FunctionResponse(name, result.isError, result.content)]
    else if m.toolCalls != [] then
      var text := if m.content.Some? && m.content.value != "" then 1 else 0;
      && content.role == "model" && |content.parts| == text + |m.toolCalls|
      && (text == 1 ==> content.parts[0] == TextPart(m.content.value))
      && forall i :: 0 <= i < |m.toolCalls| ==>
           content.parts[text..][i] == FunctionCall(m.toolCalls[i].name, m.toolCalls[i].arguments)
    else
      && content.role == (if m.role == Assistant then "model" else "user")
      && content.parts == [TextPart(if m.content == None then "" else m.content.value)]
  }

  /** The n-th message, unless it is a system message, has its content at its place among the spoken ones. */
  ghost predicate RenderedAt(messages: seq<Message>, contents: seq<Turn>, n: nat)
    requires n < |messages|
  {
    var m := messages[n];
    m.role != System ==>
      && Spoken(messages, n) < |contents|
      && RightContent(m, if m.toolResult.Some? then NameBefore(messages, n, m.toolResult.value.callId) else "",
                  contents[Spoken(messages, n)])
  }

  /** One content per message that is not a system message, in order, and no other. */
  ghost predicate AllRendered(messages: seq<Message>, contents: seq<Turn>) {
    && |contents| == Spoken(messages, |messages|)
    && forall n :: 0 <= n < |messages| ==> RenderedAt(messages, contents, n)
  }

  lemma {:induction false} LearnLast(names: Names, calls: seq<ToolCall>, n: nat, id: string)
    requires n <= |calls|
    ensures var last := LastNamed(calls, n, id);
            NameOf(Learn(names, calls[..n]), id) == if last.Some? then last.value else NameOf(names, id)
  {
    if n > 0 {
      assert calls[..n][..n - 1] == calls[..n - 1];
      LearnLast(names, calls, n - 1, id);
    }
  }

  lemma {:induction false} FirstMessages(messages: seq<Message>, k: nat, n: nat, id: string)
    requires n <= k <= |messages|
    ensures NameBefore(messages[..k], n, id) == NameBefore(messages, n, id)
    ensures SystemTexts(messages[..k], n) == SystemTexts(messages, n)
    ensures Spoken(messages[..k], n) == Spoken(messages, n)
  {
    if n > 0 { FirstMessages(messages, k, n - 1, id); }
  }

  lemma {:induction false} NamesAreLast(messages: seq<Message>, id: string)
    ensures NameOf(AddAll(NOTHING, messages).names, id) == NameBefore(messages, |messages|, id)
  {
    if messages != [] {
      var n := |messages| - 1;
      var m, before := messages[n], AddAll(NOTHING, messages[..n]);
      NamesAreLast(messages[..n], id);
      FirstMessages(messages, n, n, id);
      assert m.toolCalls[..|m.toolCalls|] == m.toolCalls;
      LearnLast(before.names, m.toolCalls, |m.toolCalls|, id);
    }
  }

  lemma {:induction false} NewlyRendered(b: Built, m: Message)
    requires m.role != System
    ensures var b' := AddMessage(b, m);
            && |b'.contents| == |b.contents| + 1 && b.contents <= b'.contents && b'.system == b.system
            && RightContent(m, if m.toolResult.Some? then NameOf(b.names, m.toolResult.value.callId) else "",
                        b'.contents[|b.contents|])
  {
    var content := AddMessage(b, m).contents[|b.contents|];
    if Calling(m) && m.toolCalls != [] {
      var text := if m.content.Some? && m.content.value != "" then 1 else 0;
      assert content.parts[text..] == CallParts(m.toolCalls);
    }
  }

  lemma {:induction false} RenderedStill(messages: seq<Message>, contents: seq<Turn>, more: seq<Turn>, n: nat, k: nat)
    requires n < k <= |messages| && contents <= more && RenderedAt(messages[..k], contents, n)
    ensures RenderedAt(messages, more, n)
  {
    var m := messages[n];
    FirstMessages(messages, k, n, if m.toolResult.Some? then m.toolResult.value.callId else "");
  }

  /** The contents of any request, message by message, and its system text. */
  lemma {:induction false} ContentsTheorem(messages: seq<Message>)
    ensures AllRendered(messages, AddAll(NOTHING, messages).contents)
    ensures AddAll(NOTHING, messages).system == SystemTexts(messages, |messages|)
  {
    if messages != [] {
      var last := |messages| - 1;
      var m, before := messages[last], AddAll(NOTHING, messages[..last]);
      var contents := AddAll(NOTHING, messages).contents;
      ContentsTheorem(messages[..last]);
      FirstMessages(messages, last, last, "");
      if m.role != System {
        NewlyRendered(before, m);
        if m.toolResult.Some? {
          NamesAreLast(messages[..last], m.toolResult.value.callId);
          FirstMessages(messages, last, last, m.toolResult.value.callId);
        }
      }
      forall n | 0 <= n < |messages| ensures RenderedAt(messages, contents, n) {
        if n < last { RenderedStill(messages, before.contents, contents, n, last); }
      }
    }
  }

  method BuildContents(request: Request) returns (system: string, contents: seq<Turn>)
    ensures contents == AddAll(NOTHING, request.messages).contents
    ensures AllRendered(request.messages, contents)
    ensures system == Join(SystemTexts(request.messages, |request.messages|), "\n")
  {
    var systemParts: seq<string>, names: Names := [], map[];
    contents := [];
    for i := 0 to |request.messages|
      invariant Built(systemParts, contents, names) == AddAll(NOTHING, request.messages[..i])
    {
      var m := request.messages[i];
      ghost var before := Built(systemParts, contents, names);
      if m.role == System {
        if m.content.Some? && m.content.value != "" { systemParts := systemParts + [m.content.value]; }
      } else if m.role == Role.Tool && m.toolResult.Some? {
        var result := m.toolResult.value;
        var name := if result.callId in names then names[result.callId] else result.callId;
        contents := contents + [Turn("user", [FunctionResponse(name, result.isError, result.content)])];
      } else if m.toolCalls != [] {
        ghost var known := names;
        for j := 0 to |m.toolCalls|
          invariant names == Learn(known, m.toolCalls[..j])
        {
          assert m.toolCalls[..j + 1][..j] == m.toolCalls[..j];
          names := names[m.toolCalls[j].id := m.toolCalls[j].name];
        }
        assert m.toolCalls[..|m.toolCalls|] == m.toolCalls;
        contents := contents + [Turn("model", TextParts(m.content) + CallParts(m.toolCalls))];
      } else {
        var role := if m.role == Assistant then "model" else "user";
        contents := contents + [Turn(role, [TextPart(ContentOr(m.content))])];
      }
      assert Built(systemParts, contents, names) == AddMessage(before, m);
      assert request.messages[..i + 1][..i] == request.messages[..i];
    }
    assert request.messages[..|request.messages|] == request.messages;
    ContentsTheorem(request.messages);
    system := Join(systemParts, "\n");
  }

  /** The calls of one message that share an id also share their name. */
  ghost predicate NamesAgree(calls: seq<ToolCall>) {
    forall i, j :: 0 <= i < |calls| && 0 <= j < |calls| && calls[i].id == calls[j].id ==> calls[i].name == calls[j].name
  }

  ghost predicate DistinctIds(calls: seq<ToolCall>) {
    forall i, j :: 0 <= i < j < |calls| ==> calls[i].id != calls[j].id
  }

  /** The id of a call leads to the name of some call of the message with that id. */
  lemma {:induction false} LearnFinds(names: Names, calls: seq<ToolCall>, i: nat) returns (k: nat)
    requires i < |calls|
    ensures k < |calls| && calls[k].id == calls[i].id
    ensures calls[i].id in Learn(names, calls) && Learn(names, calls)[calls[i].id] == calls[k].name
  {
    var last := |calls| - 1;
    if calls[last].id == calls[i].id {
      k := last;
    } else {
      k := LearnFinds(names, calls[..last], i);
    }
  }

  /** This content hands this result to the model under the name of the call it answers. */
  predicate RespondsTo(content: Turn, call: ToolCall, result: Message) {
    result.toolResult.Some? && content == ResponseTurn(call.name, result.toolResult.value)
  }

  ghost predicate AllRespond(contents: seq<Turn>, calls: seq<ToolCall>, results: seq<Message>) {
    && |contents| == |calls| == |results|
    && forall i :: 0 <= i < |calls| ==> RespondsTo(contents[i], calls[i], results[i])
  }

  /** Tool results change no names and turn into one response each, named by lookup. */
  lemma {:induction false} ResultsContents(b: Built, results: seq<Message>, calls: seq<ToolCall>)
    requires |results| <= |calls| && forall i :: 0 <= i < |results| ==> Answers(results[i], calls[i])
    ensures var b' := AddAll(b, results);
            && b'.names == b.names && |b'.contents| == |b.contents| + |results| && b.contents <= b'.contents
            && forall i :: 0 <= i < |results| ==>
                 (RespondsTo(b'.contents[|b.contents| + i], calls[i], results[i])
                  <==> NameOf(b.names, calls[i].id) == calls[i].name)
  {
    if results != [] {
      var n := |results| - 1;
      ResultsContents(b, results[..n], calls);
      assert Answers(results[n], calls[n]);
    }
  }

  lemma {:induction false} AddAllAppend(b: Built, one: seq<Message>, two: seq<Message>)
    ensures AddAll(b, one + two) == AddAll(AddAll(b, one), two)
  {
    if two == [] {
      assert one + two == one;
    } else {
      AddAllAppend(b, one, two[..|two| - 1]);
      assert (one + two)[..|one + two| - 1] == one + two[..|two| - 1];
    }
  }

  lemma {:induction false} LookupAgrees(names: Names, calls: seq<ToolCall>)
    ensures (forall i :: 0 <= i < |calls| ==> NameOf(Learn(names, calls), calls[i].id) == calls[i].name)
            <==> NamesAgree(calls)
  {
    if NamesAgree(calls) {
      forall i | 0 <= i < |calls| ensures NameOf(Learn(names, calls), calls[i].id) == calls[i].name {
        var k := LearnFinds(names, calls, i);
      }
    } else {
      var i, j :| 0 <= i < |calls| && 0 <= j < |calls| && calls[i].id == calls[j].id && calls[i].name != calls[j].name;
      assert NameOf(Learn(names, calls), calls[i].id) == NameOf(Learn(names, calls), calls[j].id);
    }
  }

  /** One turn: whatever names were known before, the message comes first and its results follow in order, all
      named right exactly when calls of the message that share an id share their name. */
  lemma {:induction false} TurnContents(b: Built, message: Message, segment: seq<Message>)
    requires IsTurn(message, segment) && message.role == Assistant
    ensures var b' := AddAll(b, segment);
            && |b'.contents| == |b.contents| + |segment| && b.contents <= b'.contents
            && b'.contents[|b.contents|] == ModelTurn(message)
            && (AllRespond(b'.contents[|b.contents| + 1..], message.toolCalls, segment[1..])
                <==> NamesAgree(message.toolCalls))
  {
    var results, turn := segment[1..], ModelTurn(message);
    var b1 := b.(contents := b.contents + [turn], names := Learn(b.names, message.toolCalls));
    TurnStartsWithMessage(b, message, segment);
    SegmentAnswers(message, segment);
    ResponsesContents(b1, b.names, message.toolCalls, results);
    StartsWith(b.contents, turn, AddAll(b1, results).contents);
  }

  lemma {:induction false} TurnStartsWithMessage(b: Built, message: Message, segment: seq<Message>)
    requires segment != [] && segment[0] == message && message.role == Assistant
    ensures AddAll(b, segment)
            == AddAll(b.(contents := b.contents + [ModelTurn(message)], names := Learn(b.names, message.toolCalls)),
                      segment[1..])
  {
    assert segment == [message] + segment[1..];
    AddAllAppend(b, [message], segment[1..]);
    MessageContents(b, message);
  }

  lemma StartsWith(before: seq<Turn>, turn: Turn, after: seq<Turn>)
    requires before + [turn] <= after
    ensures before <= after && after[|before|] == turn
  {
    assert (before + [turn])[|before|] == after[|before|];
  }

  lemma {:induction false} SegmentAnswers(message: Message, segment: seq<Message>)
    requires IsTurn(message, segment)
    ensures AllAnswered(segment[1..], message.toolCalls)
  {
    forall i | 0 <= i < |message.toolCalls| ensures Answers(segment[1..][i], message.toolCalls[i]) {
      assert Answers(segment[i + 1], message.toolCalls[i]);
    }
  }

  lemma {:induction false} MessageContents(b: Built, message: Message)
    requires message.role == Assistant
    ensures AddAll(b, [message])
            == b.(contents := b.contents + [ModelTurn(message)], names := Learn(b.names, message.toolCalls))
  {
    assert [message][..0] == [];
  }

  lemma {:induction false} ResponsesContents(b: Built, names: Names, calls: seq<ToolCall>, results: seq<Message>)
    requires b.names == Learn(names, calls) && AllAnswered(results, calls)
    ensures var b' := AddAll(b, results);
            && |b'.contents| == |b.contents| + |results| && b.contents <= b'.contents
            && (AllRespond(b'.contents[|b.contents|..], calls, results) <==> NamesAgree(calls))
  {
    ResultsContents(b, results, calls);
    LookupAgrees(names, calls);
    var responses := AddAll(b, results).contents[|b.contents|..];
    forall i | 0 <= i < |calls|
      ensures RespondsTo(responses[i], calls[i], results[i]) <==> NameOf(b.names, calls[i].id) == calls[i].name
    {}
  }

  /** Turn by turn, the assistant message and then each of its results, under the name of the call it answers. */
  ghost predicate NamedRight(contents: seq<Turn>, tail: seq<Message>, steps: seq<StepResult>) {
    if |steps| == 0 then contents == []
    else
      var message := steps[|steps| - 1].message;
      var n := TurnLength(steps[|steps| - 1]);
      && |contents| >= n && |tail| >= n
      && NamedRight(contents[..|contents| - n], tail[..|tail| - n], steps[..|steps| - 1])
      && contents[|contents| - n] == ModelTurn(message)
      && AllRespond(contents[|contents| - n + 1..], message.toolCalls, tail[|tail| - n + 1..])
  }

  ghost predicate AllAgree(steps: seq<StepResult>) {
    forall i :: 0 <= i < |steps| ==> NamesAgree(steps[i].message.toolCalls)
  }

  /** What a tail of steps adds to the contents before it. */
  ghost predicate Renders(opening: seq<Turn>, after: seq<Turn>, tail: seq<Message>, steps: seq<StepResult>) {
    && |after| == |opening| + |tail| && opening <= after
    && (NamedRight(after[|opening|..], tail, steps) <==> AllAgree(steps))
  }

  /** Ids may repeat freely across turns: after any opening messages, a transcript the loop produced is
      rendered with every response under the right name exactly when, within each single message,
      calls that share an id share their name. */
  lemma {:induction false} NamesTheorem(opening: Built, tail: seq<Message>, steps: seq<StepResult>)
    requires MadeOf(tail, steps)
    requires forall i :: 0 <= i < |steps| ==> steps[i].message.role == Assistant
    ensures Renders(opening.contents, AddAll(opening, tail).contents, tail, steps)
  {
    if steps != [] {
      var last := steps[|steps| - 1];
      var cut := |tail| - TurnLength(last);
      NamesTheorem(opening, tail[..cut], steps[..|steps| - 1]);
      assert tail == tail[..cut] + tail[cut..];
      AddAllAppend(opening, tail[..cut], tail[cut..]);
      RendersTurn(opening, AddAll(opening, tail[..cut]), tail[..cut], steps, tail[cut..]);
    }
  }

  lemma {:induction false} RendersTurn(opening: Built, before: Built, tail: seq<Message>, steps: seq<StepResult>,
                                       segment: seq<Message>)
    requires steps != [] && Renders(opening.contents, before.contents, tail, steps[..|steps| - 1])
    requires IsTurn(steps[|steps| - 1].message, segment) && steps[|steps| - 1].message.role == Assistant
    ensures Renders(opening.contents, AddAll(before, segment).contents, tail + segment, steps)
  {
    TurnContents(before, steps[|steps| - 1].message, segment);
    RendersOneMore(opening.contents, before.contents, AddAll(before, segment).contents, tail, steps, segment);
  }

  lemma {:induction false} RendersOneMore(opening: seq<Turn>, before: seq<Turn>, after: seq<Turn>, tail: seq<Message>,
                                          steps: seq<StepResult>, segment: seq<Message>)
    requires steps != [] && Renders(opening, before, tail, steps[..|steps| - 1])
    requires |segment| == TurnLength(steps[|steps| - 1]) && |after| == |before| + |segment| && before <= after
    requires after[|before|] == ModelTurn(steps[|steps| - 1].message)
    requires var calls := steps[|steps| - 1].message.toolCalls;
             AllRespond(after[|before| + 1..], calls, segment[1..]) <==> NamesAgree(calls)
    ensures Renders(opening, after, tail + segment, steps)
  {
    LastTurnNamed(opening, before, after, tail, steps, segment);
    AllAgreeSnoc(steps);
  }

  lemma AllAgreeSnoc(steps: seq<StepResult>)
    requires steps != []
    ensures AllAgree(steps) <==> AllAgree(steps[..|steps| - 1]) && NamesAgree(steps[|steps| - 1].message.toolCalls)
  {
    if AllAgree(steps[..|steps| - 1]) && NamesAgree(steps[|steps| - 1].message.toolCalls) {
      forall i | 0 <= i < |steps| ensures NamesAgree(steps[i].message.toolCalls) {
        if i < |steps| - 1 { assert NamesAgree(steps[..|steps| - 1][i].message.toolCalls); }
      }
    }
  }

  lemma {:induction false} LastTurnNamed(opening: seq<Turn>, before: seq<Turn>, after: seq<Turn>, tail: seq<Message>,
                                         steps: seq<StepResult>, segment: seq<Message>)
    requires steps != [] && opening <= before <= after && |before| == |opening| + |tail|
    requires |segment| == TurnLength(steps[|steps| - 1]) && |after| == |before| + |segment|
    ensures NamedRight(after[|opening|..], tail + segment, steps) <==>
              && NamedRight(before[|opening|..], tail, steps[..|steps| - 1])
              && after[|before|] == ModelTurn(steps[|steps| - 1].message)
              && AllRespond(after[|before| + 1..], steps[|steps| - 1].message.toolCalls, segment[1..])
  {
    var n, contents, all := |segment|, after[|opening|..], tail + segment;
    assert |contents| - n == |tail| == |all| - n;
    assert contents[..|tail|] == before[|opening|..] && all[..|tail|] == tail;
    assert contents[|tail|] == after[|before|];
    assert contents[|tail| + 1..] == after[|before| + 1..] && all[|tail| + 1..] == segment[1..];
  }

  // ---- incoming: minted ids -------------------------------------------------------------

  /** A part of a reply: some text, a function call with or without an id of the vendor's, or neither. */
  datatype ReplyPart = ReplyPart(text: string, call: Option<ReplyCall>)
  datatype ReplyCall = ReplyCall(id: string, name: string, arguments: string)

  function Digits(n: nat): string {
    (if n < 10 then "" else Digits(n / 10)) + [('0' as int + n % 10) as char]
  }

  function Value(s: string): int {
    if |s| == 0 then 0 else Value(s[..|s| - 1]) * 10 + (s[|s| - 1] as int - '0' as int)
  }

  lemma {:induction false} DigitsReadBack(n: nat)
    ensures Value(Digits(n)) == n
  {
    var high := if n < 10 then "" else Digits(n / 10);
    if n >= 10 { DigitsReadBack(n / 10); }
    assert Digits(n)[..|high|] == high;
  }

  function MintedId(index: nat): string { "call_" + Digits(index) }

  lemma MintedIdsDiffer(i: nat, j: nat)
    requires MintedId(i) == MintedId(j)
    ensures i == j
  {
    assert MintedId(i)[5..] == Digits(i) && MintedId(j)[5..] == Digits(j);
    DigitsReadBack(i);
    DigitsReadBack(j);
  }

  function IdOf(call: ReplyCall, index: nat): string { if call.id == "" then MintedId(index) else call.id }

  predicate IsCall(part: ReplyPart) { part.text == "" && part.call.Some? }

  /** The tool calls of the first n parts, with the index each came from. */
  function CallsOf(parts: seq<ReplyPart>, n: nat): (seq<ToolCall>, seq<nat>)
    requires n <= |parts|
  {
    if n == 0 then ([], [])
    else
      var (calls, indices) := CallsOf(parts, n - 1);
      if IsCall(parts[n - 1]) then
        var call := parts[n - 1].call.value;
        (calls + [ToolCall(IdOf(call, n - 1), call.name, call.arguments)], indices + [n - 1])
      else (calls, indices)
  }

  function TextsOf(parts: seq<ReplyPart>, n: nat): seq<string>
    requires n <= |parts|
  {
    if n == 0 then [] else TextsOf(parts, n - 1) + if parts[n - 1].text != "" then [parts[n - 1].text] else []
  }

  /** The assistant message a reply turns into; a reply without text has no content. */
  function MessageOf(parts: seq<ReplyPart>): Message {
    var text := Join(TextsOf(parts, |parts|), "");
    Message(Assistant, if text == "" then None else Some(text), CallsOf(parts, |parts|).0, None)
  }

  lemma {:induction false} TextsTogether(parts: seq<ReplyPart>, n: nat)
    requires n <= |parts|
    ensures Concat(TextsOf(parts, n)) == Concat(Texts(parts)[..n])
  {
    if n > 0 {
      TextsTogether(parts, n - 1);
      var text := parts[n - 1].text;
      ConcatSnoc(TextsOf(parts, n - 1), text);
      ConcatSnoc(Texts(parts)[..n - 1], text);
      assert Texts(parts)[..n] == Texts(parts)[..n - 1] + [text];
      assert Concat(TextsOf(parts, n - 1)) + "" == Concat(TextsOf(parts, n - 1));
      assert TextsOf(parts, n - 1) + [] == TextsOf(parts, n - 1);
    }
  }

  function Texts(parts: seq<ReplyPart>): seq<string> {
    seq(|parts|, i requires 0 <= i < |parts| => parts[i].text)
  }

  lemma {:induction false} DigitsAreDecimal(n: nat)
    ensures forall c :: c in Digits(n) ==> '0' <= c <= '9'
    ensures n >= 10 ==> Digits(n)[0] != '0'
    ensures n < 10 ==> |Digits(n)| == 1
  {
    if n >= 10 {
      DigitsAreDecimal(n / 10);
      if n / 10 < 10 { assert Digits(n / 10)[0] == ('0' as int + n / 10) as char; }
    }
  }

  /** The message of a reply: all its texts together, and a call for each part that is one, in order, under the
      vendor's id or one minted from the part's index. */
  lemma MessageMeaning(parts: seq<ReplyPart>) returns (indices: seq<nat>)
    ensures var m, text := MessageOf(parts), Concat(Texts(parts));
            && m.role == Assistant && m.toolResult == None
            && m.content == (if text == "" then None else Some(text))
            && |m.toolCalls| == |indices|
    ensures forall i, j :: 0 <= i < j < |indices| ==> indices[i] < indices[j]
    ensures forall i: nat :: i in indices <==> i < |parts| && parts[i].text == "" && parts[i].call.Some?
    ensures forall k :: 0 <= k < |indices| ==>
              && indices[k] < |parts| && parts[indices[k]].call.Some?
              && var call := parts[indices[k]].call.value;
              MessageOf(parts).toolCalls[k]
              == ToolCall(if call.id != "" then call.id else "call_" + Digits(indices[k]), call.name, call.arguments)
  {
    indices := CallsOf(parts, |parts|).1;
    CallsTrace(parts, |parts|);
    TextsTogether(parts, |parts|);
    JoinIsConcat(TextsOf(parts, |parts|));
    assert Texts(parts)[..|parts|] == Texts(parts);
    forall i: nat | i < |parts| && IsCall(parts[i]) ensures i in indices { var k := CallFound(parts, |parts|, i); }
  }

  lemma {:induction false} TextsOfNothing(parts: seq<ReplyPart>, n: nat)
    requires n <= |parts|
    ensures TextsOf(parts, n) == [] <==> forall i :: 0 <= i < n ==> parts[i].text == ""
    ensures forall text :: text in TextsOf(parts, n) ==> text != ""
  {
    if n > 0 { TextsOfNothing(parts, n - 1); }
  }

  /** A reply's message is without content exactly when none of its parts is text. */
  lemma ContentOfReply(parts: seq<ReplyPart>)
    ensures MessageOf(parts).content == None <==> forall i :: 0 <= i < |parts| ==> parts[i].text == ""
  {
    TextsOfNothing(parts, |parts|);
    var texts := TextsOf(parts, |parts|);
    if texts != [] { assert texts[0] in texts && texts[0] <= Join(texts, ""); }
  }

  method ToMessage(parts: seq<ReplyPart>) returns (message: Message)
    ensures message == MessageOf(parts)
  {
    var textParts: seq<string>, toolCalls: seq<ToolCall> := [], [];
    for index := 0 to |parts|
      invariant textParts == TextsOf(parts, index) && toolCalls == CallsOf(parts, index).0
    {
      var part := parts[index];
      if part.text != "" {
        textParts := textParts + [part.text];
      } else if part.call.Some? {
        var call := part.call.value;
        var id := if call.id != "" then call.id else MintedId(index);
        toolCalls := toolCalls + [ToolCall(id, call.name, call.arguments)];
      }
    }
    var text := Join(textParts, "");
    return Message(Assistant, if text == "" then None else Some(text), toolCalls, None);
  }

  predicate CameFrom(call: ToolCall, part: ReplyPart, index: nat) {
    IsCall(part) && call == ToolCall(IdOf(part.call.value, index), part.call.value.name, part.call.value.arguments)
  }

  lemma {:induction false} CallsTrace(parts: seq<ReplyPart>, n: nat)
    requires n <= |parts|
    ensures var (calls, indices) := CallsOf(parts, n);
            && |calls| == |indices|
            && (forall k :: 0 <= k < |calls| ==> indices[k] < n && CameFrom(calls[k], parts[indices[k]], indices[k]))
            && (forall k, l :: 0 <= k < l < |indices| ==> indices[k] < indices[l])
  {
    if n > 0 { CallsTrace(parts, n - 1); }
  }

  lemma {:induction false} CallFound(parts: seq<ReplyPart>, n: nat, i: nat) returns (k: nat)
    requires i < n <= |parts| && IsCall(parts[i])
    ensures k < |CallsOf(parts, n).1| && CallsOf(parts, n).1[k] == i
  {
    if i == n - 1 {
      k := |CallsOf(parts, n - 1).1|;
    } else {
      k := CallFound(parts, n - 1, i);
    }
  }

  /** The vendor's own id of the i-th part's call is the one the j-th part's call goes by, its own or minted. */
  predicate Clash(parts: seq<ReplyPart>, i: nat, j: nat)
    requires i < |parts| && j < |parts|
  {
    i != j && IsCall(parts[i]) && IsCall(parts[j]) && parts[i].call.value.id != ""
    && parts[i].call.value.id
       == (if parts[j].call.value.id != "" then parts[j].call.value.id else MintedId(j))
  }

  lemma SharedIdIsClash(parts: seq<ReplyPart>, i: nat, j: nat)
    requires i < |parts| && j < |parts| && i != j && IsCall(parts[i]) && IsCall(parts[j])
    ensures IdOf(parts[i].call.value, i) == IdOf(parts[j].call.value, j) <==> Clash(parts, i, j) || Clash(parts, j, i)
  {
    if parts[i].call.value.id == "" && parts[j].call.value.id == "" && MintedId(i) == MintedId(j) {
      MintedIdsDiffer(i, j);
    }
  }

  /** Two calls of a reply share their id exactly if the parts they came from clash. */
  lemma {:induction false} SharedIdTrace(parts: seq<ReplyPart>, k: nat, l: nat)
    requires k < l < |CallsOf(parts, |parts|).0|
    ensures var (calls, indices) := CallsOf(parts, |parts|);
            && |calls| == |indices| && indices[k] < indices[l] < |parts|
            && CameFrom(calls[k], parts[indices[k]], indices[k]) && CameFrom(calls[l], parts[indices[l]], indices[l])
            && (calls[k].id == calls[l].id
                <==> Clash(parts, indices[k], indices[l]) || Clash(parts, indices[l], indices[k]))
  {
    CallsTrace(parts, |parts|);
    var (calls, indices) := CallsOf(parts, |parts|);
    SharedIdIsClash(parts, indices[k], indices[l]);
  }

  /** Clashing parts show up as two calls that share their id. */
  lemma ClashShows(parts: seq<ReplyPart>, i: nat, j: nat) returns (k: nat, l: nat)
    requires i < |parts| && j < |parts| && Clash(parts, i, j)
    ensures var calls := CallsOf(parts, |parts|).0;
            && k < |calls| && l < |calls| && k != l && calls[k].id == calls[l].id
            && calls[k].name == parts[i].call.value.name && calls[l].name == parts[j].call.value.name
  {
    CallsTrace(parts, |parts|);
    k := CallFound(parts, |parts|, i);
    l := CallFound(parts, |parts|, j);
  }

  ghost predicate NoClash(parts: seq<ReplyPart>) {
    forall i, j :: 0 <= i < |parts| && 0 <= j < |parts| ==> !Clash(parts, i, j)
  }

  /** The ids of a reply's calls are distinct exactly when no id of the vendor's own is used twice or equals
      the id minted for another part. */
  lemma {:induction false} IdsAreDistinct(parts: seq<ReplyPart>)
    ensures DistinctIds(CallsOf(parts, |parts|).0) <==> NoClash(parts)
  {
    var calls := CallsOf(parts, |parts|).0;
    forall k, l | 0 <= k < l < |calls| && NoClash(parts) ensures calls[k].id != calls[l].id {
      SharedIdTrace(parts, k, l);
    }
    forall i, j | 0 <= i < |parts| && 0 <= j < |parts| && Clash(parts, i, j) ensures !DistinctIds(calls) {
      var k, l := ClashShows(parts, i, j);
    }
  }

  /** Calls of this reply that clash call the same tool. */
  ghost predicate ClashesAgree(parts: seq<ReplyPart>) {
    forall i, j :: 0 <= i < |parts| && 0 <= j < |parts| && Clash(parts, i, j) ==>
      parts[i].call.value.name == parts[j].call.value.name
  }

  lemma {:induction false} AgreementOfReply(parts: seq<ReplyPart>)
    ensures NamesAgree(CallsOf(parts, |parts|).0) <==> ClashesAgree(parts)
  {
    var calls := CallsOf(parts, |parts|).0;
    forall k, l | 0 <= k < |calls| && 0 <= l < |calls| && ClashesAgree(parts) && calls[k].id == calls[l].id
      ensures calls[k].name == calls[l].name
    {
      if k != l { SharedIdTrace(parts, if k < l then k else l, if k < l then l else k); }
    }
    forall i, j | 0 <= i < |parts| && 0 <= j < |parts| && Clash(parts, i, j) && NamesAgree(calls)
      ensures parts[i].call.value.name == parts[j].call.value.name
    {
      var k, l := ClashShows(parts, i, j);
    }
  }

  /** In particular, a vendor that sends no ids gets distinct ones. */
  lemma {:induction false} MintedIdsAreDistinct(parts: seq<ReplyPart>)
    requires forall i :: 0 <= i < |parts| && IsCall(parts[i]) ==> parts[i].call.value.id == ""
    ensures DistinctIds(CallsOf(parts, |parts|).0) && NamesAgree(CallsOf(parts, |parts|).0)
  {
    IdsAreDistinct(parts);
    AgreementOfReply(parts);
  }

  /** There and back: in a transcript of the loop whose assistant messages were made of these replies, every
      result goes back under its call's name exactly when clashing calls of one reply call the same tool. */
  lemma {:induction false} RoundTrip(opening: Built, tail: seq<Message>, steps: seq<StepResult>,
                                     replies: seq<seq<ReplyPart>>)
    requires MadeOf(tail, steps) && |replies| == |steps|
    requires forall i :: 0 <= i < |steps| ==> steps[i].message == MessageOf(replies[i])
    ensures var before, after := |opening.contents|, AddAll(opening, tail).contents;
            && before <= |after|
            && (NamedRight(after[before..], tail, steps)
                <==> forall i :: 0 <= i < |replies| ==> ClashesAgree(replies[i]))
  {
    NamesTheorem(opening, tail, steps);
    forall i | 0 <= i < |replies| ensures NamesAgree(steps[i].message.toolCalls) <==> ClashesAgree(replies[i]) {
      AgreementOfReply(replies[i]);
    }
  }

  /** A vendor id that looks minted can collide with a minted one: the two calls then share id call_1. */
  lemma VendorIdCanCollide(arguments: string)
    ensures var parts := [ReplyPart("", Some(ReplyCall("call_1", "search", arguments))),
                          ReplyPart("", Some(ReplyCall("", "delete", arguments)))];
            !NamesAgree(CallsOf(parts, 2).0)
  {
    var first, second := ReplyCall("call_1", "search", arguments), ReplyCall("", "delete", arguments);
    var parts := [ReplyPart("", Some(first)), ReplyPart("", Some(second))];
    assert MintedId(1) == "call_1" by { assert Digits(1) == "1"; assert "call_" + "1" == "call_1"; }
    assert Clash(parts, 0, 1);
    AgreementOfReply(parts);
  }
}
