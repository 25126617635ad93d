/** Normalising a chat history for providers that insist on strictly alternating turns. */
module ChatHistory {
  import opened Vocabulary
  import opened Text

  datatype ChatRole = FromSystem | FromUser | FromAssistant

  datatype ChatMessage = ChatMessage(role: ChatRole, content: string)

  datatype Options = Options(forceTrailingFiller: bool, filler: string, drop: Option<string>)

  const MAX_LENGTH: nat := 4000

  function Cap(s: string): string { if |s| <= MAX_LENGTH then s else s[..MAX_LENGTH] }

  function CleanOne(m: ChatMessage): ChatMessage {
    ChatMessage(if m.role == FromAssistant then FromAssistant else FromUser, Cap(Trim(m.content, JavaScriptSpace)))
  }

  predicate Kept(m: ChatMessage, drop: Option<string>) {
    |m.content| > 0 && (drop == None || m.content != drop.value)
  }

  function Cleaned(ui: seq<ChatMessage>, drop: Option<string>): seq<ChatMessage> {
    if |ui| == 0 then []
    else (if Kept(CleanOne(ui[0]), drop) then [CleanOne(ui[0])] else []) + Cleaned(ui[1..], drop)
  }

  /** The cleaned list with its filler turn, if one is due. */
  function Opened(ui: seq<ChatMessage>, options: Options): seq<ChatMessage> {
    var messages, filler := Cleaned(ui, options.drop), ChatMessage(FromUser, options.filler);
    if options.forceTrailingFiller then messages + [filler]
    else if messages != [] && messages[0].role == FromAssistant then [filler] + messages
    else messages
  }

  function Absorb(merged: seq<ChatMessage>, m: ChatMessage): seq<ChatMessage> {
    var n := |merged|;
    if n > 0 && merged[n - 1].role == m.role
    then merged[n - 1 := ChatMessage(m.role, merged[n - 1].content + "\n\n" + m.content)]
    else merged + [m]
  }

  function Merge(messages: seq<ChatMessage>): seq<ChatMessage> {
    if |messages| == 0 then [] else Absorb(Merge(messages[..|messages| - 1]), messages[|messages| - 1])
  }

  function Built(ui: seq<ChatMessage>, options: Options): seq<ChatMessage> {
    var merged := Merge(Opened(ui, options));
    if merged == [] then [ChatMessage(FromUser, options.filler)] else merged
  }

  method MergeTurns(messages: seq<ChatMessage>) returns (merged: seq<ChatMessage>)
    ensures merged == Merge(messages)
  {
    merged := [];
    for i := 0 to |messages|
      invariant merged == Merge(messages[..i])
    {
      var message := messages[i];
      assert messages[..i + 1][..i] == messages[..i];
      if |merged| > 0 && merged[|merged| - 1].role == message.role {
        var last := merged[|merged| - 1];
        merged := merged[|merged| - 1 := ChatMessage(last.role, last.content + "\n\n" + message.content)];
      } else {
        merged := merged + [message];
      }
    }
    assert messages[..|messages|] == messages;
  }

  method BuildMessages(ui: seq<ChatMessage>, options: Options) returns (out: seq<ChatMessage>)
    ensures out == Built(ui, options)
  {
    var messages := Cleaned(ui, options.drop);
    if options.forceTrailingFiller {
      messages := messages + [ChatMessage(FromUser, options.filler)];
    } else if |messages| > 0 && messages[0].role == FromAssistant {
      messages := [ChatMessage(FromUser, options.filler)] + messages;
    }
    var merged := MergeTurns(messages);
    out := if |merged| > 0 then merged else [ChatMessage(FromUser, options.filler)];
  }

  // ---- merging is run-grouping ----------------------------------------------------------

  function Flatten(runs: seq<seq<ChatMessage>>): seq<ChatMessage> {
    if |runs| == 0 then [] else Flatten(runs[..|runs| - 1]) + runs[|runs| - 1]
  }

  function Contents(run: seq<ChatMessage>): seq<string> {
    seq(|run|, i requires 0 <= i < |run| => run[i].content)
  }

  ghost predicate Uniform(run: seq<ChatMessage>) {
    run != [] && forall i :: 0 <= i < |run| ==> run[i].role == run[0].role
  }

  /** The maximal runs of equal roles. */
  ghost predicate IsRunGrouping(runs: seq<seq<ChatMessage>>, messages: seq<ChatMessage>) {
    && Flatten(runs) == messages
    && (forall i :: 0 <= i < |runs| ==> Uniform(runs[i]))
    && (forall i, j :: 0 <= i && j == i + 1 < |runs| ==> runs[i][0].role != runs[j][0].role)
  }

  /** One turn per run, its contents joined by blank lines. */
  ghost predicate Summarises(out: seq<ChatMessage>, runs: seq<seq<ChatMessage>>) {
    && |out| == |runs|
    && forall i :: 0 <= i < |runs| ==>
         runs[i] != [] && out[i] == ChatMessage(runs[i][0].role, Join(Contents(runs[i]), "\n\n"))
  }

  lemma {:induction false} JoinSnoc(parts: seq<string>, last: string, separator: string)
    requires parts != []
    ensures Join(parts + [last], separator) == Join(parts, separator) + separator + last
  {
    if |parts| == 1 {
      assert (parts + [last])[1..] == [last];
    } else {
      JoinSnoc(parts[1..], last, separator);
      assert (parts + [last])[1..] == parts[1..] + [last];
      assert parts[0] + separator + (Join(parts[1..], separator) + separator + last)
          == parts[0] + separator + Join(parts[1..], separator) + separator + last;
    }
  }

  /** The last run grows by a turn of its own role. */
  lemma GrowLastRun(groups: seq<seq<ChatMessage>>, before: seq<ChatMessage>, merged: seq<ChatMessage>, m: ChatMessage)
    requires IsRunGrouping(groups, before) && Summarises(merged, groups)
    requires groups != [] && groups[|groups| - 1][0].role == m.role
    ensures var n := |groups|;
            var runs := groups[n - 1 := groups[n - 1] + [m]];
            IsRunGrouping(runs, before + [m]) && Summarises(Absorb(merged, m), runs)
  {
    var n := |groups|;
    var run := groups[n - 1] + [m];
    var runs := groups[n - 1 := run];
    assert Uniform(groups[n - 1]);
    JoinSnoc(Contents(groups[n - 1]), m.content, "\n\n");
    assert Contents(run) == Contents(groups[n - 1]) + [m.content];
    assert runs[..n - 1] == groups[..n - 1];
    assert Flatten(runs) == Flatten(groups[..n - 1]) + (groups[n - 1] + [m]);
  }

  /** A turn of another role (or the very first) starts a run. */
  lemma StartRun(groups: seq<seq<ChatMessage>>, before: seq<ChatMessage>, merged: seq<ChatMessage>, m: ChatMessage)
    requires IsRunGrouping(groups, before) && Summarises(merged, groups)
    requires groups == [] || groups[|groups| - 1][0].role != m.role
    ensures IsRunGrouping(groups + [[m]], before + [m]) && Summarises(Absorb(merged, m), groups + [[m]])
  {
    var runs := groups + [[m]];
    assert runs[..|groups|] == groups;
    assert Contents([m]) == [m.content];
    assert Flatten(runs) == before + [m];
  }

  /** Merging is exactly grouping into maximal runs and joining each. */
  lemma {:induction false} MergeIsGrouping(messages: seq<ChatMessage>) returns (runs: seq<seq<ChatMessage>>)
    ensures IsRunGrouping(runs, messages) && Summarises(Merge(messages), runs)
  {
    if messages == [] {
      runs := [];
    } else {
      var before, m := messages[..|messages| - 1], messages[|messages| - 1];
      var groups: seq<seq<ChatMessage>> := MergeIsGrouping(before);
      var n := |groups|;
      assert messages == before + [m];
      if n > 0 && groups[n - 1][0].role == m.role {
        GrowLastRun(groups, before, Merge(before), m);
        runs := groups[n - 1 := groups[n - 1] + [m]];
      } else {
        StartRun(groups, before, Merge(before), m);
        runs := groups + [[m]];
      }
    }
  }

  // ---- laws of the output ---------------------------------------------------------------

  ghost predicate Alternating(out: seq<ChatMessage>) {
    forall i, j :: 0 <= i && j == i + 1 < |out| ==> out[i].role != out[j].role
  }

  ghost predicate Conversational(out: seq<ChatMessage>) {
    forall i :: 0 <= i < |out| ==> out[i].role != FromSystem
  }

  lemma {:induction false} MergeLaws(messages: seq<ChatMessage>)
    requires Conversational(messages)
    ensures var out := Merge(messages);
            && Alternating(out) && Conversational(out)
            && (out == [] <==> messages == [])
            && (messages != [] ==>
                  out[0].role == messages[0].role && out[|out| - 1].role == messages[|messages| - 1].role)
  {
    if messages != [] { MergeLaws(messages[..|messages| - 1]); }
  }

  lemma {:induction false} CleanedConversational(ui: seq<ChatMessage>, drop: Option<string>)
    ensures Conversational(Cleaned(ui, drop))
  {
    if ui != [] { CleanedConversational(ui[1..], drop); }
  }

  /** Never empty, only user and assistant, strictly alternating; user first unless a trailing filler is
      forced, and user last when it is. */
  lemma BuiltLaws(ui: seq<ChatMessage>, options: Options)
    ensures var out := Built(ui, options);
            && out != [] && Conversational(out) && Alternating(out)
            && (!options.forceTrailingFiller ==> out[0].role == FromUser)
            && (options.forceTrailingFiller ==> out[|out| - 1].role == FromUser)
  {
    CleanedConversational(ui, options.drop);
    MergeLaws(Opened(ui, options));
  }

  // ---- the output in terms of the input -------------------------------------------------

  /** A message as the provider may see it: the assistant's stay the assistant's and all others are the user's; the
      text is the content without the space around it, cut after 4000 characters. */
  ghost predicate Tidies(m: ChatMessage, turn: ChatMessage) {
    && turn.role == (if m.role == FromAssistant then FromAssistant else FromUser)
    && exists text {:trigger Surrounded(m.content, text, JavaScriptSpace)} ::
         && Trimmed(text, JavaScriptSpace) && Surrounded(m.content, text, JavaScriptSpace)
         && turn.content == (if |text| <= 4000 then text else text[..4000])
  }

  lemma CleanIsExact(m: ChatMessage, turn: ChatMessage)
    ensures Tidies(m, turn) <==> turn == CleanOne(m)
  {
    TrimIsExact(m.content, Trim(m.content, JavaScriptSpace), JavaScriptSpace);
    if Tidies(m, turn) {
      var text :| && Trimmed(text, JavaScriptSpace) && Surrounded(m.content, text, JavaScriptSpace)
                  && turn.content == (if |text| <= 4000 then text else text[..4000]);
      TrimIsExact(m.content, text, JavaScriptSpace);
    }
  }

  /** A message with text left that is not the marker to drop. */
  ghost predicate Counts(m: ChatMessage, drop: Option<string>) {
    exists turn :: Tidies(m, turn) && turn.content != "" && Some(turn.content) != drop
  }

  lemma CountsIsKept(m: ChatMessage, drop: Option<string>)
    ensures Counts(m, drop) <==> Kept(CleanOne(m), drop)
  {
    CleanIsExact(m, CleanOne(m));
    if Counts(m, drop) {
      var turn :| Tidies(m, turn) && turn.content != "" && Some(turn.content) != drop;
      CleanIsExact(m, turn);
    }
  }

  /** The messages that count, tidied, in order; `at` says which message each turn is. */
  ghost predicate TidiesAll(ui: seq<ChatMessage>, drop: Option<string>, turns: seq<ChatMessage>, at: seq<nat>) {
    && |at| == |turns|
    && (forall k :: 0 <= k < |at| ==> at[k] < |ui| && Tidies(ui[at[k]], turns[k]))
    && (forall j, k :: 0 <= j < k < |at| ==> at[j] < at[k])
    && (forall i: nat :: i in at <==> i < |ui| && Counts(ui[i], drop))
  }

  ghost function TurnsOf(m: ChatMessage, drop: Option<string>): seq<ChatMessage> {
    if Kept(CleanOne(m), drop) then [CleanOne(m)] else []
  }

  lemma {:induction false} CleanedCons(m: ChatMessage, ui: seq<ChatMessage>, drop: Option<string>)
    ensures Cleaned([m] + ui, drop) == TurnsOf(m, drop) + Cleaned(ui, drop)
  {
    assert ([m] + ui)[1..] == ui;
  }

  lemma {:induction false} CleanedSnoc(ui: seq<ChatMessage>, m: ChatMessage, drop: Option<string>)
    ensures Cleaned(ui + [m], drop) == Cleaned(ui, drop) + TurnsOf(m, drop)
  {
    if ui == [] {
      assert ui + [m] == [m] + ui;
      CleanedCons(m, ui, drop);
    } else {
      var first, rest := ui[0], ui[1..];
      CleanedSnoc(rest, m, drop);
      assert ui == [first] + rest && ui + [m] == [first] + (rest + [m]);
      CleanedCons(first, rest, drop);
      CleanedCons(first, rest + [m], drop);
      Associative(TurnsOf(first, drop), Cleaned(rest, drop), TurnsOf(m, drop));
    }
  }

  lemma {:induction false} CleanedTrace(ui: seq<ChatMessage>, drop: Option<string>) returns (at: seq<nat>)
    ensures TidiesAll(ui, drop, Cleaned(ui, drop), at)
  {
    if ui == [] {
      at := [];
    } else {
      var n := |ui| - 1;
      var before := CleanedTrace(ui[..n], drop);
      CleanedSnoc(ui[..n], ui[n], drop);
      assert ui == ui[..n] + [ui[n]];
      at := TurnTrace(ui, drop, Cleaned(ui[..n], drop), before);
    }
  }

  lemma TurnTrace(ui: seq<ChatMessage>, drop: Option<string>, turns: seq<ChatMessage>, before: seq<nat>)
    returns (at: seq<nat>)
    requires ui != [] && TidiesAll(ui[..|ui| - 1], drop, turns, before)
    ensures TidiesAll(ui, drop, turns + TurnsOf(ui[|ui| - 1], drop), at)
  {
    var n := |ui| - 1;
    CountsIsKept(ui[n], drop);
    CleanIsExact(ui[n], CleanOne(ui[n]));
    if Counts(ui[n], drop) {
      OneMoreTurn(ui, drop, turns, before, CleanOne(ui[n]));
      at := before + [n];
    } else {
      SkippedTurn(ui, drop, turns, before);
      assert turns + [] == turns;
      at := before;
    }
  }

  lemma SkippedTurn(ui: seq<ChatMessage>, drop: Option<string>, turns: seq<ChatMessage>, before: seq<nat>)
    requires ui != [] && TidiesAll(ui[..|ui| - 1], drop, turns, before) && !Counts(ui[|ui| - 1], drop)
    ensures TidiesAll(ui, drop, turns, before)
  {
    forall i: nat ensures i in before <==> i < |ui| && Counts(ui[i], drop) {
      assert i in before <==> i < |ui| - 1 && Counts(ui[..|ui| - 1][i], drop);
    }
  }

  lemma OneMoreTurn(ui: seq<ChatMessage>, drop: Option<string>, turns: seq<ChatMessage>, before: seq<nat>,
                    turn: ChatMessage)
    requires ui != [] && TidiesAll(ui[..|ui| - 1], drop, turns, before)
    requires Counts(ui[|ui| - 1], drop) && Tidies(ui[|ui| - 1], turn)
    ensures TidiesAll(ui, drop, turns + [turn], before + [|ui| - 1])
  {
    var n := |ui| - 1;
    forall i: nat ensures i in before + [n] <==> i < |ui| && Counts(ui[i], drop) {
      assert i in before <==> i < n && Counts(ui[..n][i], drop);
    }
  }

  /** The output in terms of the input: the messages that count, tidied and in order; the filler as the user's turn
      last if it is forced, first if the assistant would open; then one turn per maximal run of a role, its texts
      joined by blank lines. The filler alone if nothing is left. */
  lemma BuiltMeaning(ui: seq<ChatMessage>, options: Options)
    returns (turns: seq<ChatMessage>, at: seq<nat>, runs: seq<seq<ChatMessage>>)
    ensures TidiesAll(ui, options.drop, turns, at)
    ensures var filler := ChatMessage(FromUser, options.filler);
            if turns == [] then Built(ui, options) == [filler]
            else
              var prepared :=
                if options.forceTrailingFiller then turns + [filler]
                else if turns[0].role == FromAssistant then [filler] + turns
                else turns;
              IsRunGrouping(runs, prepared) && Summarises(Built(ui, options), runs)
  {
    turns := Cleaned(ui, options.drop);
    at := CleanedTrace(ui, options.drop);
    runs := MergeIsGrouping(Opened(ui, options));
    if turns == [] {
      FillerAlone(ui, options);
    } else {
      FillerNotNeeded(ui, options);
    }
  }

  lemma {:induction false} FillerNotNeeded(ui: seq<ChatMessage>, options: Options)
    requires Cleaned(ui, options.drop) != []
    ensures Built(ui, options) == Merge(Opened(ui, options))
  {
    CleanedConversational(ui, options.drop);
    MergeLaws(Opened(ui, options));
  }

  lemma {:induction false} FillerAlone(ui: seq<ChatMessage>, options: Options)
    requires Cleaned(ui, options.drop) == []
    ensures Built(ui, options) == [ChatMessage(FromUser, options.filler)]
  {
    var filler := ChatMessage(FromUser, options.filler);
    if options.forceTrailingFiller {
      assert Opened(ui, options) == [filler];
      assert Merge([filler]) == Absorb(Merge([filler][..0]), filler) && Merge([filler][..0]) == [];
    }
  }

  // ---- idempotence ----------------------------------------------------------------------

  /** No content starts with a space, and one that ends with one was cut at the limit. */
  ghost predicate Sound(c: string) {
    c != "" && !JavaScriptSpace(c[0]) && (JavaScriptSpace(c[|c| - 1]) ==> |c| >= MAX_LENGTH)
  }

  ghost predicate AllSound(messages: seq<ChatMessage>) {
    forall i :: 0 <= i < |messages| ==> Sound(messages[i].content)
  }

  lemma CleanSound(m: ChatMessage)
    requires CleanOne(m).content != ""
    ensures Sound(CleanOne(m).content)
  {
    TrimMeaning(m.content, JavaScriptSpace);
  }

  lemma {:induction false} CleanedSound(ui: seq<ChatMessage>, drop: Option<string>)
    ensures AllSound(Cleaned(ui, drop))
  {
    if ui != [] {
      CleanedSound(ui[1..], drop);
      if CleanOne(ui[0]).content != "" { CleanSound(ui[0]); }
    }
  }

  lemma JoinedSound(a: string, b: string)
    requires Sound(a) && Sound(b)
    ensures Sound(a + "\n\n" + b)
  {
    var c := a + "\n\n" + b;
    assert c[0] == a[0] && c[|c| - 1] == b[|b| - 1];
  }

  lemma {:induction false} MergeSound(messages: seq<ChatMessage>)
    requires AllSound(messages)
    ensures AllSound(Merge(messages))
  {
    if messages != [] {
      var before, m := Merge(messages[..|messages| - 1]), messages[|messages| - 1];
      MergeSound(messages[..|messages| - 1]);
      if before != [] { JoinedSound(before[|before| - 1].content, m.content); }
    }
  }

  /** A content that a second pass leaves alone. */
  predicate Settled(m: ChatMessage) {
    m.content != "" && |m.content| <= MAX_LENGTH && !JavaScriptSpace(m.content[|m.content| - 1])
  }

  lemma SecondClean(m: ChatMessage)
    requires Sound(m.content) && m.role != FromSystem
    ensures CleanOne(m).content != "" && CleanOne(m).role == m.role
    ensures CleanOne(m) == m <==> Settled(m)
  {
    var c := m.content;
    assert TrimLeft(c, JavaScriptSpace) == c;
    TrimRightKeeps(c, JavaScriptSpace);
    TrimMeaning(c, JavaScriptSpace);
    TrimRightClean(c, JavaScriptSpace);
    assert Trimmed(c, JavaScriptSpace) <==> !JavaScriptSpace(c[|c| - 1]);
  }

  lemma {:induction false} TrimRightKeeps(s: string, space: char -> bool)
    requires s != "" && !space(s[0])
    ensures TrimRight(s, space) != ""
  {
    if space(s[|s| - 1]) { TrimRightKeeps(s[..|s| - 1], space); }
  }

  function CleanEach(messages: seq<ChatMessage>): seq<ChatMessage> {
    seq(|messages|, i requires 0 <= i < |messages| => CleanOne(messages[i]))
  }

  lemma {:induction false} NothingDropped(messages: seq<ChatMessage>, drop: Option<string>)
    requires AllSound(messages) && Conversational(messages)
    requires forall i :: 0 <= i < |messages| ==> Kept(CleanOne(messages[i]), drop)
    ensures Cleaned(messages, drop) == CleanEach(messages)
    ensures forall i :: 0 <= i < |messages| ==> CleanOne(messages[i]).role == messages[i].role
  {
    if messages != [] {
      NothingDropped(messages[1..], drop);
      SecondClean(messages[0]);
      assert CleanEach(messages) == [CleanOne(messages[0])] + CleanEach(messages[1..]);
      forall i | 0 <= i < |messages| ensures CleanOne(messages[i]).role == messages[i].role {
        if i > 0 { assert messages[i] == messages[1..][i - 1]; }
      }
    }
  }

  lemma {:induction false} CleanedShorter(messages: seq<ChatMessage>, drop: Option<string>, i: nat)
    requires i < |messages| && !Kept(CleanOne(messages[i]), drop)
    ensures |Cleaned(messages, drop)| < |messages|
  {
    if i > 0 {
      CleanedShorter(messages[1..], drop, i - 1);
    } else {
      CleanedAtMost(messages[1..], drop);
    }
  }

  lemma {:induction false} CleanedAtMost(messages: seq<ChatMessage>, drop: Option<string>)
    ensures |Cleaned(messages, drop)| <= |messages|
  {
    if messages != [] { CleanedAtMost(messages[1..], drop); }
  }

  lemma {:induction false} MergeAtMost(messages: seq<ChatMessage>)
    ensures |Merge(messages)| <= |messages|
  {
    if messages != [] { MergeAtMost(messages[..|messages| - 1]); }
  }

  lemma {:induction false} NothingMerged(messages: seq<ChatMessage>)
    requires Alternating(messages)
    ensures Merge(messages) == messages
  {
    if messages != [] {
      NothingMerged(messages[..|messages| - 1]);
      assert messages == messages[..|messages| - 1] + [messages[|messages| - 1]];
    }
  }

  /** A usable filler: trimmed and not blank. */
  ghost predicate GoodFiller(filler: string) {
    filler != "" && Trimmed(filler, JavaScriptSpace)
  }

  lemma {:induction false} BuiltSound(ui: seq<ChatMessage>, options: Options)
    requires GoodFiller(options.filler) && !options.forceTrailingFiller
    ensures AllSound(Built(ui, options))
  {
    CleanedSound(ui, options.drop);
    OpenedSound(ui, options);
    MergeSound(Opened(ui, options));
  }

  lemma {:induction false} OpenedSound(ui: seq<ChatMessage>, options: Options)
    requires GoodFiller(options.filler) && !options.forceTrailingFiller && AllSound(Cleaned(ui, options.drop))
    ensures AllSound(Opened(ui, options))
  {}

  /** A turn that a second pass neither drops nor changes. */
  predicate Stable(m: ChatMessage, drop: Option<string>) { Settled(m) && Some(m.content) != drop }

  /** An opening filler that a second pass drops as a marker and puts back. */
  predicate Restored(m: ChatMessage, options: Options) {
    Some(CleanOne(m).content) == options.drop && m.content == options.filler
  }

  ghost predicate AllStable(messages: seq<ChatMessage>, drop: Option<string>) {
    forall i :: 0 <= i < |messages| ==> Stable(messages[i], drop)
  }

  /** A list the normaliser can return. */
  ghost predicate WellFormed(out: seq<ChatMessage>) {
    out != [] && AllSound(out) && Conversational(out) && Alternating(out) && out[0].role == FromUser
  }

  lemma KeptIsStable(m: ChatMessage, drop: Option<string>)
    requires Sound(m.content) && m.role != FromSystem
    ensures Kept(CleanOne(m), drop) && CleanOne(m) == m <==> Stable(m, drop)
    ensures !Kept(CleanOne(m), drop) <==> Some(CleanOne(m).content) == drop
  {
    SecondClean(m);
  }

  /** Turns that are all kept come back unchanged exactly if all are stable. */
  lemma SameEach(messages: seq<ChatMessage>, drop: Option<string>)
    requires AllSound(messages) && Conversational(messages)
    requires forall i :: 0 <= i < |messages| ==> Kept(CleanOne(messages[i]), drop)
    ensures CleanEach(messages) == messages <==> AllStable(messages, drop)
  {
    forall i | 0 <= i < |messages| ensures CleanEach(messages)[i] == messages[i] <==> Stable(messages[i], drop) {
      KeptIsStable(messages[i], drop);
    }
  }

  /** Nothing dropped: each turn is only cleaned. */
  lemma SecondPass(out: seq<ChatMessage>, options: Options)
    requires WellFormed(out) && !options.forceTrailingFiller
    requires forall i :: 0 <= i < |out| ==> Kept(CleanOne(out[i]), options.drop)
    ensures Built(out, options) == CleanEach(out)
  {
    NothingDropped(out, options.drop);
    var cleaned := CleanEach(out);
    assert Alternating(cleaned);
    NothingMerged(cleaned);
    assert cleaned[0].role == FromUser;
  }

  lemma NothingDroppedAgain(out: seq<ChatMessage>, options: Options)
    requires WellFormed(out) && !options.forceTrailingFiller
    requires forall i :: 0 <= i < |out| ==> Kept(CleanOne(out[i]), options.drop)
    ensures Built(out, options) == out <==> Stable(out[0], options.drop) && AllStable(out[1..], options.drop)
  {
    SecondPass(out, options);
    SameEach(out, options.drop);
    assert out == [out[0]] + out[1..];
  }

  /** Only the opening turn dropped: the filler takes its place. */
  lemma OpeningDropped(out: seq<ChatMessage>, options: Options)
    requires WellFormed(out) && !options.forceTrailingFiller && !Kept(CleanOne(out[0]), options.drop)
    requires forall i :: 0 <= i < |out[1..]| ==> Kept(CleanOne(out[1..][i]), options.drop)
    ensures Built(out, options) == [ChatMessage(FromUser, options.filler)] + CleanEach(out[1..])
  {
    var rest := out[1..];
    NothingDropped(rest, options.drop);
    assert Cleaned(out, options.drop) == CleanEach(rest);
    if rest != [] {
      var turns := [ChatMessage(FromUser, options.filler)] + CleanEach(rest);
      assert CleanEach(rest)[0].role == rest[0].role == out[1].role != out[0].role;
      assert Opened(out, options) == turns;
      LedByUser(rest, turns);
      NothingMerged(turns);
    }
  }

  lemma LedByUser(rest: seq<ChatMessage>, turns: seq<ChatMessage>)
    requires Alternating(rest) && |turns| == |rest| + 1 && turns[0].role == FromUser
    requires rest != [] && rest[0].role != FromUser
    requires forall i :: 0 <= i < |rest| ==> turns[i + 1].role == rest[i].role
    ensures Alternating(turns)
  {
    forall i, j | 0 <= i && j == i + 1 < |turns| ensures turns[i].role != turns[j].role {
      if i > 0 { assert turns[i - 1 + 1].role == rest[i - 1].role != rest[j - 1].role == turns[j - 1 + 1].role; }
    }
  }

  lemma OpeningDroppedAgain(out: seq<ChatMessage>, options: Options)
    requires WellFormed(out) && !options.forceTrailingFiller && !Kept(CleanOne(out[0]), options.drop)
    requires forall i :: 1 <= i < |out| ==> Kept(CleanOne(out[i]), options.drop)
    ensures Built(out, options) == out <==> out[0].content == options.filler && AllStable(out[1..], options.drop)
  {
    OpeningDropped(out, options);
    SameEach(out[1..], options.drop);
    assert out == [out[0]] + out[1..];
    SameHeadAndTail(out[0], out[1..], ChatMessage(FromUser, options.filler), CleanEach(out[1..]));
  }

  lemma SameHeadAndTail(a: ChatMessage, xs: seq<ChatMessage>, b: ChatMessage, ys: seq<ChatMessage>)
    ensures [a] + xs == [b] + ys <==> a == b && xs == ys
  {
    assert ([a] + xs)[1..] == xs && ([b] + ys)[1..] == ys && ([a] + xs)[0] == a && ([b] + ys)[0] == b;
  }

  /** A later turn dropped: the result is shorter. */
  lemma InnerDropped(out: seq<ChatMessage>, options: Options, i: nat)
    requires WellFormed(out) && !options.forceTrailingFiller
    requires 1 <= i < |out| && !Kept(CleanOne(out[i]), options.drop)
    ensures |Built(out, options)| < |out|
  {
    MergeAtMost(Opened(out, options));
    CleanedShorter(out[1..], options.drop, i - 1);
    SecondClean(out[0]);
  }

  lemma UnchangedExactly(out: seq<ChatMessage>, options: Options)
    requires WellFormed(out) && !options.forceTrailingFiller
    ensures Built(out, options) == out
            <==> (Stable(out[0], options.drop) || Restored(out[0], options)) && AllStable(out[1..], options.drop)
  {
    KeptIsStable(out[0], options.drop);
    if i :| 1 <= i < |out| && !Kept(CleanOne(out[i]), options.drop) {
      InnerDropped(out, options, i);
      KeptIsStable(out[i], options.drop);
      assert out[1..][i - 1] == out[i];
    } else if Kept(CleanOne(out[0]), options.drop) {
      NothingDroppedAgain(out, options);
    } else {
      OpeningDroppedAgain(out, options);
    }
  }

  /** Normalising again changes nothing exactly when every turn is within the limit, ends in a non-space and is
      not the marker to drop, save that the first may be a filler that is dropped as the marker and put back.
      Without a marker, turns under the limit are always so. */
  lemma Idempotence(ui: seq<ChatMessage>, options: Options)
    requires GoodFiller(options.filler) && !options.forceTrailingFiller
    ensures var out := Built(ui, options);
            && out != []
            && (Built(out, options) == out
                <==> (Stable(out[0], options.drop) || Restored(out[0], options)) && AllStable(out[1..], options.drop))
            && (options.drop == None && (forall i :: 0 <= i < |out| ==> |out[i].content| < MAX_LENGTH)
                ==> Built(out, options) == out)
  {
    var out := Built(ui, options);
    BuiltLaws(ui, options);
    BuiltSound(ui, options);
    UnchangedExactly(out, options);
    if options.drop == None && forall i :: 0 <= i < |out| ==> |out[i].content| < MAX_LENGTH {
      forall i | 0 <= i < |out| ensures Stable(out[i], None) {}
    }
  }
}
