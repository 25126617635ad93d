/** The browser client's incremental line splitter and the streaming accumulator built on it. */
module LineStream {
  import opened Vocabulary
  import opened Text

  /** Every newline-terminated line of a text; an unterminated rest is dropped. */
  function CompleteLines(text: string): seq<string> {
    var pieces := Split(text, '\n');
    pieces[..|pieces| - 1]
  }

  function Terminated(lines: seq<string>): string {
    if |lines| == 0 then "" else lines[0] + "\n" + Terminated(lines[1..])
  }

  lemma {:induction false} JoinedIsTerminated(pieces: seq<string>)
    requires |pieces| >= 1
    ensures Join(pieces, "\n") == Terminated(pieces[..|pieces| - 1]) + pieces[|pieces| - 1]
  {
    if |pieces| > 1 {
      JoinedIsTerminated(pieces[1..]);
      var lines := pieces[..|pieces| - 1];
      assert lines[1..] == pieces[1..][..|pieces| - 2];
      assert pieces[0] + "\n" + (Terminated(lines[1..]) + pieces[|pieces| - 1])
          == pieces[0] + "\n" + Terminated(lines[1..]) + pieces[|pieces| - 1];
    } else {
      assert Terminated(pieces[..0]) + pieces[0] == pieces[0];
    }
  }

  /** The complete lines: newline-free, and with a newline after each they make up the text but for a newline-free
      rest. */
  lemma LinesMeaning(text: string) returns (rest: string)
    ensures text == Terminated(CompleteLines(text)) + rest && '\n' !in rest
    ensures forall line :: line in CompleteLines(text) ==> '\n' !in line
  {
    var pieces := Split(text, '\n');
    SplitMeaning(text, '\n');
    assert ['\n'] == "\n";
    JoinedIsTerminated(pieces);
    rest := pieces[|pieces| - 1];
    assert rest in pieces && forall line :: line in CompleteLines(text) ==> line in pieces;
  }

  /** Feeding one more chunk to the splitter extends the text it has split. */
  lemma {:induction false} FeedChunk(text: string, lines: seq<string>, buffer: string, chunk: string)
    requires Split(text, '\n') == lines + [buffer]
    ensures var pieces := Split(buffer + chunk, '\n');
            Split(text + chunk, '\n') == lines + pieces[..|pieces| - 1] + [pieces[|pieces| - 1]]
  {
    var rest := Split(chunk, '\n');
    SplitMeaning(text, '\n');
    assert (lines + [buffer])[|lines|] == buffer;
    SplitWithout(buffer, '\n');
    SplitAppend(text, chunk, '\n');
    SplitAppend(buffer, chunk, '\n');
    GlueAfter(lines, buffer, rest);
  }

  lemma GlueAfter(lines: seq<string>, buffer: string, rest: seq<string>)
    requires |rest| >= 1
    ensures var pieces := Glue([buffer], rest);
            Glue(lines + [buffer], rest) == lines + pieces[..|pieces| - 1] + [pieces[|pieces| - 1]]
  {
    assert (lines + [buffer])[..|lines|] == lines;
    var pieces := Glue([buffer], rest);
    assert pieces == pieces[..|pieces| - 1] + [pieces[|pieces| - 1]];
  }

  lemma ConcatPrefix(chunks: seq<string>, i: nat)
    requires i < |chunks|
    ensures Concat(chunks[..i + 1]) == Concat(chunks[..i]) + chunks[i]
  {
    ConcatSnoc(chunks[..i], chunks[i]);
    assert chunks[..i + 1] == chunks[..i] + [chunks[i]];
  }

  /** Lines in the order the callback sees them: those of the whole text, however it was chunked. */
  method ConsumeLines(chunks: seq<string>) returns (lines: seq<string>)
    ensures lines == CompleteLines(Concat(chunks))
  {
    var buffer := "";
    lines := [];
    for i := 0 to |chunks|
      invariant Split(Concat(chunks[..i]), '\n') == lines + [buffer]
    {
      FeedChunk(Concat(chunks[..i]), lines, buffer, chunks[i]);
      ConcatPrefix(chunks, i);
      var pieces := Split(buffer + chunks[i], '\n');
      buffer := pieces[|pieces| - 1];
      lines := lines + pieces[..|pieces| - 1];
    }
    assert chunks[..|chunks|] == chunks;
  }

  // ---- the accumulator ------------------------------------------------------------------

  const PREFIX := "data: "

  /** Text a line adds; `parse` reads the delta out of a frame, None when it has none or is malformed. */
  function Delta(parse: string -> Option<string>, line: string): string {
    if !(PREFIX <= line) then ""
    else
      var raw := Trim(line[|PREFIX|..], JavaScriptSpace);
      if raw == "[DONE]" || parse(raw) == None then "" else parse(raw).value
  }

  /** What a line adds: nothing unless it begins with "data: " and holds a frame other than [DONE]; then the delta of
      that frame, whatever space stands around it. */
  lemma DeltaMeaning(parse: string -> Option<string>, line: string, pre: string, frame: string, post: string)
    requires (forall c :: c in pre ==> JavaScriptSpace(c)) && forall c :: c in post ==> JavaScriptSpace(c)
    requires Trimmed(frame, JavaScriptSpace)
    ensures !("data: " <= line) ==> Delta(parse, line) == ""
    ensures Delta(parse, "data: " + (pre + frame + post))
            == if frame == "[DONE]" || parse(frame) == None then "" else parse(frame).value
  {
    var payload := pre + frame + post;
    assert ("data: " + payload)[6..] == payload;
    TrimPadded(pre, frame, post, JavaScriptSpace);
  }

  function Last(texts: seq<string>): string { if |texts| == 0 then "" else texts[|texts| - 1] }

  /** The cumulative texts handed to onChunk. */
  function Emitted(parse: string -> Option<string>, lines: seq<string>): seq<string> {
    if |lines| == 0 then []
    else
      var before, delta := Emitted(parse, lines[..|lines| - 1]), Delta(parse, lines[|lines| - 1]);
      if delta == "" then before else before + [Last(before) + delta]
  }

  lemma OneMoreLine(parse: string -> Option<string>, lines: seq<string>, i: nat)
    requires i < |lines|
    ensures var before, delta := Emitted(parse, lines[..i]), Delta(parse, lines[i]);
            Emitted(parse, lines[..i + 1]) == if delta == "" then before else before + [Last(before) + delta]
  {
    assert lines[..i + 1][..i] == lines[..i];
  }

  method StreamOpenAICompatible(chunks: seq<string>, parse: string -> Option<string>)
    returns (full: string, emitted: seq<string>)
    ensures emitted == Emitted(parse, CompleteLines(Concat(chunks)))
    ensures full == Last(emitted)
  {
    full, emitted := "", [];
    var lines := ConsumeLines(chunks);
    for i := 0 to |lines|
      invariant emitted == Emitted(parse, lines[..i]) && full == Last(emitted)
    {
      OneMoreLine(parse, lines, i);
      var line := lines[i];
      if !(PREFIX <= line) { continue; }
      var raw := Trim(line[|PREFIX|..], JavaScriptSpace);
      if raw == "[DONE]" { continue; }
      var delta := parse(raw);
      if delta.Some? && delta.value != "" {
        full := full + delta.value;
        emitted := emitted + [full];
      }
    }
    assert lines[..|lines|] == lines;
  }

  function Deltas(parse: string -> Option<string>, lines: seq<string>): seq<string> {
    seq(|lines|, i requires 0 <= i < |lines| => Delta(parse, lines[i]))
  }

  lemma DeltasSnoc(parse: string -> Option<string>, lines: seq<string>)
    requires lines != []
    ensures var before, delta := lines[..|lines| - 1], Delta(parse, lines[|lines| - 1]);
            Concat(Deltas(parse, lines)) == Concat(Deltas(parse, before)) + delta
  {
    var before, delta := lines[..|lines| - 1], Delta(parse, lines[|lines| - 1]);
    ConcatSnoc(Deltas(parse, before), delta);
    assert Deltas(parse, lines) == Deltas(parse, before) + [delta];
  }

  ghost predicate Growing(texts: seq<string>) { forall i, j :: 0 <= i < j < |texts| ==> texts[i] < texts[j] }

  lemma GrowsFurther(texts: seq<string>, text: string)
    requires Growing(texts) && Last(texts) < text
    ensures Growing(texts + [text])
  {
    var more := texts + [text];
    forall i, j | 0 <= i < j < |more| ensures more[i] < more[j] {
      if j == |texts| && i < |texts| - 1 { assert texts[i] < Last(texts); }
    }
  }

  /** Each emission strictly extends the ones before, and the last is all the deltas. */
  lemma {:induction false} EmissionsGrow(parse: string -> Option<string>, lines: seq<string>)
    ensures var texts := Emitted(parse, lines);
            && Growing(texts)
            && Last(texts) == Concat(Deltas(parse, lines))
            && (texts == [] <==> Concat(Deltas(parse, lines)) == "")
  {
    if lines != [] {
      var before, delta := lines[..|lines| - 1], Delta(parse, lines[|lines| - 1]);
      EmissionsGrow(parse, before);
      DeltasSnoc(parse, lines);
      if delta != "" { GrowsFurther(Emitted(parse, before), Last(Emitted(parse, before)) + delta); }
    }
  }

  /** One text for each line that adds any, of everything up to and including that line; `at` says which. */
  ghost predicate EmittedAt(parse: string -> Option<string>, lines: seq<string>, texts: seq<string>, at: seq<nat>) {
    && |at| == |texts|
    && (forall k :: 0 <= k < |at| ==> at[k] < |lines| && texts[k] == Concat(Deltas(parse, lines[..at[k] + 1])))
    && (forall j, k :: 0 <= j < k < |at| ==> at[j] < at[k])
    && (forall i: nat :: i in at <==> i < |lines| && Delta(parse, lines[i]) != "")
  }

  lemma NothingEmitted(parse: string -> Option<string>, before: seq<string>, line: string, texts: seq<string>,
                       at: seq<nat>)
    requires EmittedAt(parse, before, texts, at) && Delta(parse, line) == ""
    ensures EmittedAt(parse, before + [line], texts, at)
  {
    SliceOfPrefix(before, line, at);
    forall i: nat ensures i in at <==> i < |before| + 1 && Delta(parse, (before + [line])[i]) != "" {
      assert i in at <==> i < |before| && Delta(parse, before[i]) != "";
    }
  }

  lemma OneMoreEmitted(parse: string -> Option<string>, before: seq<string>, line: string, texts: seq<string>,
                       at: seq<nat>, text: string)
    requires EmittedAt(parse, before, texts, at) && Delta(parse, line) != ""
    requires text == Concat(Deltas(parse, before + [line]))
    ensures EmittedAt(parse, before + [line], texts + [text], at + [|before|])
  {
    SliceOfPrefix(before, line, at);
    assert (before + [line])[..|before| + 1] == before + [line];
    forall i: nat ensures i in at + [|before|] <==> i < |before| + 1 && Delta(parse, (before + [line])[i]) != "" {
      assert i in at <==> i < |before| && Delta(parse, before[i]) != "";
    }
  }

  lemma SliceOfPrefix(before: seq<string>, line: string, at: seq<nat>)
    requires forall k :: 0 <= k < |at| ==> at[k] < |before|
    ensures forall k :: 0 <= k < |at| ==> (before + [line])[..at[k] + 1] == before[..at[k] + 1]
  {}

  lemma {:induction false} EmittedGrows(parse: string -> Option<string>, before: seq<string>, line: string)
    ensures var lines := before + [line];
            Emitted(parse, lines)
            == if Delta(parse, line) == "" then Emitted(parse, before)
               else Emitted(parse, before) + [Concat(Deltas(parse, lines))]
  {
    var lines := before + [line];
    assert lines[..|before|] == before && lines[..|before| + 1] == lines;
    OneMoreLine(parse, lines, |before|);
    EmissionsGrow(parse, before);
    DeltasSnoc(parse, lines);
  }

  /** What is emitted: the text so far, whenever a line adds to it. */
  lemma {:induction false} EmissionsMeaning(parse: string -> Option<string>, lines: seq<string>) returns (at: seq<nat>)
    ensures EmittedAt(parse, lines, Emitted(parse, lines), at)
  {
    if lines == [] {
      at := [];
    } else {
      var before, line := lines[..|lines| - 1], lines[|lines| - 1];
      at := EmissionsMeaning(parse, before);
      assert lines == before + [line];
      EmittedGrows(parse, before, line);
      if Delta(parse, line) == "" {
        NothingEmitted(parse, before, line, Emitted(parse, before), at);
      } else {
        OneMoreEmitted(parse, before, line, Emitted(parse, before), at, Concat(Deltas(parse, lines)));
        at := at + [|before|];
      }
    }
  }
}
