/** What the events and the record of a turn say about what the backend reported, in the
    backend's own terms: which calls, under which ids, with which statistics, and which of
    the text is visible. */
module TurnMeaning {
  import opened Wrappers
  import opened BatchParts
  import opened ReplyScanner
  import opened Assembly
  import opened StreamModel
  import opened EventStreams
  import opened Recording
  import opened RawTurn
  import opened MessageMeaning
  import CivilDate

  // ── Calls ─────────────────────────────────────────────────────────────────

  /** How many calls come before place `i`, and how many of them have no id. */
  function CallsBefore(tokens: seq<TokenEvent>, i: nat): nat
    requires i <= |tokens|
  {
    if i == 0 then 0 else CallsBefore(tokens, i - 1) + if tokens[i - 1].Call? then 1 else 0
  }

  predicate HasNoId(token: TokenEvent) {
    token.Call? && (token.id == None || token.id == Some(""))
  }

  function NoIdBefore(tokens: seq<TokenEvent>, i: nat): nat
    requires i <= |tokens|
  {
    if i == 0 then 0 else NoIdBefore(tokens, i - 1) + if HasNoId(tokens[i - 1]) then 1 else 0
  }

  lemma {:induction false} BeforeIsPrefix(tokens: seq<TokenEvent>, i: nat, n: nat)
    requires i <= n <= |tokens|
    ensures CallsBefore(tokens[..n], i) == CallsBefore(tokens, i) && NoIdBefore(tokens[..n], i) == NoIdBefore(tokens, i)
  {
    if i > 0 {
      BeforeIsPrefix(tokens, i - 1, n);
    }
  }

  lemma {:induction false} CallsCounted(message: nat, tokens: seq<TokenEvent>)
    ensures |CallsOf(message, tokens)| == CallsBefore(tokens, |tokens|) && UnnamedIn(tokens) == NoIdBefore(tokens, |tokens|)
    decreases |tokens|
  {
    if tokens != [] {
      var n := |tokens| - 1;
      CallsCounted(message, tokens[..n]);
      BeforeIsPrefix(tokens, n, n);
    }
  }

  /** The id of a call: its own, or, when it has none, one that counts the calls without
      one. */
  function IdAt(message: nat, tokens: seq<TokenEvent>, i: nat): string
    requires i < |tokens| && tokens[i].Call?
  {
    if HasNoId(tokens[i]) then "call_" + (CivilDate.Decimal(message) + "_" + CivilDate.Decimal(NoIdBefore(tokens, i)))
    else tokens[i].id.value
  }

  lemma {:induction false} LastCallIsKept(message: nat, most: seq<TokenEvent>, last: TokenEvent)
    requires last.Call?
    ensures var tokens := most + [last];
            CallsOf(message, tokens) == CallsOf(message, most) + [ToolCall(IdAt(message, tokens, |most|), last.name, last.arguments)]
  {
    var tokens := most + [last];
    assert tokens[..|most|] == most;
    CallsCounted(message, most);
    BeforeIsPrefix(tokens, |most|, |most|);
    hide CallsOf, UnnamedIn, ItemsOf, LastStats, ShedOf, NoIdBefore, CallsBefore, CivilDate.Decimal;
    OneMoreToken(message, most, last);
  }

  /** Each call of the backend is a call of the message, in its order, under its id, with its
      name and its arguments. */
  lemma {:induction false} CallIsKept(message: nat, tokens: seq<TokenEvent>, i: nat)
    requires i < |tokens| && tokens[i].Call?
    ensures |CallsOf(message, tokens)| == CallsBefore(tokens, |tokens|) && CallsBefore(tokens, i) < |CallsOf(message, tokens)|
    ensures CallsOf(message, tokens)[CallsBefore(tokens, i)]
            == ToolCall(IdAt(message, tokens, i), tokens[i].name, tokens[i].arguments)
    decreases |tokens|
  {
    hide CallsOf, UnnamedIn, ItemsOf, LastStats, ShedOf, NoIdBefore, CallsBefore, CivilDate.Decimal;
    var n := |tokens| - 1;
    var most, last := tokens[..n], tokens[n];
    assert tokens == most + [last];
    CallsCounted(message, tokens);
    CallsCounted(message, most);
    BeforeIsPrefix(tokens, n, n);
    if i < n {
      CallIsKept(message, most, i);
      BeforeIsPrefix(tokens, i, n);
      OneMoreToken(message, most, last);
    } else {
      LastCallIsKept(message, most, last);
    }
  }

  lemma {:induction false} NoIdGrows(tokens: seq<TokenEvent>, i: nat, j: nat)
    requires i < j <= |tokens| && HasNoId(tokens[i])
    ensures NoIdBefore(tokens, i) < NoIdBefore(tokens, j)
    decreases j
  {
    if i + 1 < j {
      NoIdGrows(tokens, i, j - 1);
    }
  }

  /** Two calls without an id never share the one they are given, within a turn or across
      turns. */
  lemma {:induction false} GivenIdsDiffer(m: nat, a: seq<TokenEvent>, i: nat, n: nat, b: seq<TokenEvent>, j: nat)
    requires i < |a| && HasNoId(a[i]) && j < |b| && HasNoId(b[j])
    requires m != n || (a == b && i < j)
    ensures CallsBefore(a, i) < |CallsOf(m, a)| && CallsBefore(b, j) < |CallsOf(n, b)|
    ensures CallsOf(m, a)[CallsBefore(a, i)].id != CallsOf(n, b)[CallsBefore(b, j)].id
  {
    CallIsKept(m, a, i);
    CallIsKept(n, b, j);
    if a == b && i < j {
      NoIdGrows(a, i, j);
    }
    if Minted(m, NoIdBefore(a, i)) == Minted(n, NoIdBefore(b, j)) {
      MintedIdsDiffer(m, NoIdBefore(a, i), n, NoIdBefore(b, j));
    }
  }

  /** Calls are told in three events, which carry the call's own id, name and arguments,
      and in nothing else. */
  ghost predicate Announced(events: seq<Event>) {
    && (forall i :: 0 <= i < |events| && events[i].ToolCallStart? ==> i + 2 < |events| && events[i + 2].ToolCallEnd?)
    && (forall i :: 0 <= i < |events| && events[i].ToolCallArgumentsDelta? ==> i + 1 < |events| && events[i + 1].ToolCallEnd?)
    && (forall i :: 0 <= i < |events| && events[i].ToolCallEnd? ==>
          && i >= 2
          && events[i - 2] == ToolCallStart(events[i].call.id, events[i].call.name)
          && events[i - 1] == ToolCallArgumentsDelta(events[i].call.id, events[i].call.arguments))
  }

  lemma {:induction false} AnnouncedInTwo(a: seq<Event>, b: seq<Event>)
    requires Announced(a) && Announced(b)
    ensures Announced(a + b)
  {
    var c := a + b;
    forall i | 0 <= i < |c|
      ensures c[i].ToolCallStart? ==> i + 2 < |c| && c[i + 2].ToolCallEnd?
      ensures c[i].ToolCallArgumentsDelta? ==> i + 1 < |c| && c[i + 1].ToolCallEnd?
      ensures c[i].ToolCallEnd? ==>
                i >= 2 && c[i - 2] == ToolCallStart(c[i].call.id, c[i].call.name)
                && c[i - 1] == ToolCallArgumentsDelta(c[i].call.id, c[i].call.arguments)
    {
      if i < |a| {
        assert c[i] == a[i];
      } else {
        assert c[i] == b[i - |a|];
      }
    }
  }

  lemma {:induction false} NothingToAnnounce(events: seq<Event>)
    requires forall i :: 0 <= i < |events| ==> events[i].Delta? || events[i].Usage? || events[i].Finished?
    ensures Announced(events)
  {}

  lemma {:induction false} EventAnnounced(message: nat, history: seq<TokenEvent>, event: TokenEvent)
    ensures Announced(EventsOf(message, history, event))
  {
    hide SlicesEvents, ItemsOf, UnnamedIn;
    match event {
      case Token(slices) =>
        SlicesAreDeltas(ItemsOf(history), slices);
        NothingToAnnounce(EventsOf(message, history, event));
      case SpeechChunk(pending, _, _) =>
        SlicesAreDeltas(ItemsOf(history), pending);
        NothingToAnnounce(EventsOf(message, history, event));
      case _ =>
    }
  }

  lemma {:induction false} HistoryAnnounced(message: nat, history: seq<TokenEvent>)
    ensures Announced(AllEvents(message, history))
    decreases |history|
  {
    hide EventsOf, Announced;
    if history == [] {
      NothingToAnnounce([]);
    } else {
      var most, last := history[..|history| - 1], history[|history| - 1];
      HistoryAnnounced(message, most);
      EventAnnounced(message, most, last);
      AnnouncedInTwo(AllEvents(message, most), EventsOf(message, most, last));
    }
  }

  lemma {:induction false} TurnAnnounced(message: nat, maxTokens: Option<nat>, tokens: seq<TokenEvent>, finish: Finish, pending: seq<Slice>)
    ensures Announced(HandedOut(message, maxTokens, tokens, finish, pending))
  {
    hide AllEvents, SlicesEvents, ItemsOf, ReasonAfter, LastStats, Announced;
    SlicesAreDeltas(ItemsOf(tokens), pending);
    HistoryAnnounced(message, tokens);
    NothingToAnnounce(FinishEvents(message, maxTokens, tokens, finish, pending));
    AnnouncedInTwo(AllEvents(message, tokens), FinishEvents(message, maxTokens, tokens, finish, pending));
  }

  // ── Statistics ────────────────────────────────────────────────────────────

  /** The statistics of a turn are the last ones reported, if any were. */
  lemma {:induction false} StatsAreTheLast(tokens: seq<TokenEvent>)
    ensures match LastStats(tokens)
            case None => forall i :: 0 <= i < |tokens| ==> !tokens[i].Reported?
            case Some(stats) =>
              exists i :: 0 <= i < |tokens| && tokens[i] == Assembly.Reported(stats)
                          && forall k :: i < k < |tokens| ==> !tokens[k].Reported?
  {
    if tokens != [] && !tokens[|tokens| - 1].Reported? {
      StatsAreTheLast(tokens[..|tokens| - 1]);
    }
  }

  /** A turn tells its usage exactly when the backend reported statistics: once, right
      before it finishes. */
  lemma {:induction false} UsageIsTold(message: nat, maxTokens: Option<nat>, tokens: seq<TokenEvent>, finish: Finish, pending: seq<Slice>)
    ensures var events := HandedOut(message, maxTokens, tokens, finish, pending);
            && events != []
            && (forall i :: 0 <= i < |events| && events[i].Usage? ==> i == |events| - 2 && LastStats(tokens) == Some(events[i].stats))
            && (LastStats(tokens).Some? ==> |events| >= 2 && events[|events| - 2] == Usage(LastStats(tokens).value))
  {
    hide AllEvents, FinishEvents, LastStats, ReasonAfter;
    AllEventsAreRunning(message, tokens);
    var reason := ReasonAfter(message, maxTokens, tokens, finish);
    FinishCloses(message, maxTokens, tokens, finish, pending);
    ClosesBehind(AllEvents(message, tokens), FinishEvents(message, maxTokens, tokens, finish, pending), LastStats(tokens), reason);
    var events := HandedOut(message, maxTokens, tokens, finish, pending);
    var before: seq<Event> :| Running(before) && events == before + ClosingEvents(LastStats(tokens), reason);
  }

  // ── The message ───────────────────────────────────────────────────────────

  /** A message is its parts and then its calls, each in order, and one empty text when it
      would have neither. */
  lemma {:induction false} ContentInOrder(parts: seq<Part>, calls: seq<ToolCall>)
    ensures var content := ContentOf(parts, calls);
            if |parts| + |calls| == 0 then content == [Piece(TextPart(""))]
            else
              && |content| == |parts| + |calls|
              && (forall i :: 0 <= i < |parts| ==> content[i] == Piece(parts[i]))
              && (forall i :: 0 <= i < |calls| ==> content[|parts| + i] == Called(calls[i]))
  {}

  lemma {:induction false} ShedIsTheSum(a: seq<TokenEvent>, b: seq<TokenEvent>)
    ensures ShedOf(a + b) == ShedOf(a) + ShedOf(b)
    ensures forall n: nat :: ShedOf([ContextTruncated(n)]) == n && ShedOf([ContextCompacted(n)]) == n
    decreases |b|
  {
    forall n: nat
      ensures ShedOf([ContextTruncated(n)]) == n && ShedOf([ContextCompacted(n)]) == n
    {
      OneShed(ContextTruncated(n), n);
      OneShed(ContextCompacted(n), n);
    }
    if b == [] {
      assert a + b == a;
    } else {
      ShedIsTheSum(a, b[..|b| - 1]);
      assert (a + b)[..|a + b| - 1] == a + b[..|b| - 1];
    }
  }

  lemma {:induction false} OneShed(token: TokenEvent, n: nat)
    requires token == ContextTruncated(n) || token == ContextCompacted(n)
    ensures ShedOf([token]) == n
  {
    assert [token][..0] == [];
  }

  /** Besides the message, a turn that does not fail leaves what was shed in the session,
      and the response has the whole message and the last statistics. */
  lemma {:induction false} ResponseIsTheTurn(message: nat, maxTokens: Option<nat>, tokens: seq<TokenEvent>, finish: Finish,
                                             pending: seq<Slice>, closeAfter: bool, s: Transcript)
    ensures var outcome := OutcomeOf(NewCore(message, maxTokens, tokens, Completed(finish, pending), closeAfter), s);
            && outcome.transcript.shed == s.shed + ShedOf(tokens)
            && outcome.response.Some?
            && outcome.response.value.content == ContentOf(PartsAfter(tokens, pending), CallsOf(message, tokens))
            && outcome.response.value.stats == LastStats(tokens)
            && Explains(outcome.response.value.reason, finish, CallsOf(message, tokens), LastStats(tokens), maxTokens)
  {
    hide PartsAfter, CallsOf, LastStats, ShedOf, ContentOf, RecordOf, WorthRecording, Explains;
    assert [] + tokens == tokens;
  }

  // ── A turn that thinks ────────────────────────────────────────────────────

  /** The text of a reply that thinks: marker, thought, marker, answer, with the whitespace
      the template puts around them. */
  function ThinkingText(before: string, opening: string, inner: string, closing: string, outer: string): string {
    before + (opening + (inner + (closing + outer)))
  }

  /** The markers stand where they should, and nowhere else. */
  ghost predicate WellMarked(markers: Markers, before: string, opening: string, inner: string, closing: string, outer: string) {
    && opening != "" && closing != ""
    && Quiet(before, markers.opening) && Quiet(inner, markers.closing) && Quiet(outer, markers.opening)
    && Decides(opening + (inner + (closing + outer)), markers.opening, Matched(|opening|))
    && Decides(closing + outer, markers.closing, Matched(|closing|))
  }

  lemma {:induction false} RunsOfThree(before: string, inner: string, outer: string)
    requires inner != "" && outer != ""
    ensures Runs(Letters(Text, before) + (Letters(Reasoning, inner) + Letters(Text, outer)))
            == (if before == "" then [] else [Words(Text, before)]) + [Words(Reasoning, inner), Words(Text, outer)]
  {
    hide Runs, Letters;
    var a, b, c := Letters(Text, before), Letters(Reasoning, inner), Letters(Text, outer);
    assert a + (b + c) == (a + b) + c;
    LettersMakeTheRun(a + b, Text, outer);
    RunsOneMore(a + b, Emission(Text, outer));
    LettersMakeTheRun(a, Reasoning, inner);
    RunsOneMore(a, Emission(Reasoning, inner));
    RunsOfText(before);
    var first := if before == "" then [] else [Words(Text, before)];
    assert AddItem(first, Emission(Reasoning, inner)) == first + [Words(Reasoning, inner)];
    assert AddItem(first + [Words(Reasoning, inner)], Emission(Text, outer))
           == first + [Words(Reasoning, inner)] + [Words(Text, outer)];
  }

  lemma {:induction false} RunsOfText(text: string)
    ensures Runs(Letters(Text, text)) == if text == "" then [] else [Words(Text, text)]
  {
    if text != "" {
      LettersMakeTheRun([], Text, text);
      RunsOneMore([], Emission(Text, text));
      assert [] + Letters(Text, text) == Letters(Text, text);
    } else {
      assert Letters(Text, text) == [];
    }
  }

  /** Nothing shown before is as nothing there. */
  lemma {:induction false} PartsOfThree(before: string, front: string, thought: string, back: string, newlines: string, answer: string)
    requires AllWhite(front) && AllWhite(back) && Clean(thought) && OnlyNewlines(newlines) && NoNewline(answer)
    ensures PartsOf((if before == "" then [] else [Words(Text, before)])
                    + [Words(Reasoning, front + thought + back), Words(Text, newlines + answer)])
            == (if before == "" then [] else [TextPart(before)]) + [ReasoningPart(thought), TextPart(answer)]
  {
    hide PartsOf;
    var second, third := Words(Reasoning, front + thought + back), Words(Text, newlines + answer);
    if before == "" {
      ThoughtAlone(front, thought, back, newlines, answer);
      assert [] + [second, third] == [second, third];
      assert [] + [ReasoningPart(thought), TextPart(answer)] == [ReasoningPart(thought), TextPart(answer)];
    } else {
      ThoughtBetween(before, front, thought, back, newlines, answer);
      assert [Words(Text, before)] + [second, third] == [Words(Text, before), second, third];
    }
  }

  /** The whole way: of a reply that thinks, however it is cut into tokens, the message has
      what stands before the opening marker as visible text, what stands between the
      markers as reasoning, and what stands behind the closing one as visible text. The
      markers, the whitespace around the thought and the newlines before the answer are in
      neither. */
  lemma {:induction false} ThinkingTurn(markers: Markers, message: nat, maxTokens: Option<nat>, input: seq<BackendEvent>, before: string,
                                        opening: string, front: string, thought: string, back: string, closing: string,
                                        newlines: string, answer: string)
    requires AllWhite(front) && AllWhite(back) && Clean(thought) && OnlyNewlines(newlines) && NoNewline(answer)
    requires WellMarked(markers, before, opening, front + thought + back, closing, newlines + answer)
    requires Joined("", input) == [Written(ThinkingText(before, opening, front + thought + back, closing, newlines + answer))]
    ensures PartsAfter(TokensOf(markers, AT_START, input), PendingAfter(markers, AT_START, input))
            == (if before == "" then [] else [TextPart(before)]) + [ReasoningPart(thought), TextPart(answer)]
  {
    var inner, outer := front + thought + back, newlines + answer;
    var text := ThinkingText(before, opening, inner, closing, outer);
    assert |inner| >= |thought| > 0 && |outer| >= |answer| > 0;
    hide Scan, Letters, Runs, PartsOf, Decides, Quiet, Joined, TokensOf, PendingAfter, PartsAfter, AllWhite, OnlyNewlines, ThinkingText;
    PartsOfReply(markers, input);
    OneText(markers, text);
    ThinkingReply(markers, before, opening, inner, closing, outer);
    RunsOfThree(before, inner, outer);
    PartsOfThree(before, front, thought, back, newlines, answer);
  }

  /** And so it is recorded, when the turn makes no calls. */
  lemma {:induction false} ThinkingTurnRecorded(markers: Markers, message: nat, maxTokens: Option<nat>, input: seq<BackendEvent>,
                                                finish: Finish, closeAfter: bool, s: Transcript, before: string, opening: string,
                                                front: string, thought: string, back: string, closing: string, newlines: string,
                                                answer: string)
    requires AllWhite(front) && AllWhite(back) && Clean(thought) && OnlyNewlines(newlines) && NoNewline(answer)
    requires WellMarked(markers, before, opening, front + thought + back, closing, newlines + answer)
    requires Joined("", input) == [Written(ThinkingText(before, opening, front + thought + back, closing, newlines + answer))]
    requires forall i :: 0 <= i < |input| ==> !(input[i].Noted? && input[i].event.Call?)
    ensures OutcomeOf(CoreFor(markers, message, maxTokens, input, Ok(finish), closeAfter), s).transcript.messages
            == s.messages + [StreamModel.Reply(before + answer, Some(thought))]
  {
    hide Joined, TokensOf, PendingAfter, PartsAfter, AllWhite, OnlyNewlines, ThinkingText, WellMarked, CallsOf, LastStats, ShedOf,
         UnnamedIn, ContentOf, RecordOf, WorthRecording, NotedIn, ReasonAfter;
    ThinkingTurn(markers, message, maxTokens, input, before, opening, front, thought, back, closing, newlines, answer);
    NotesOfReply(message, markers, input);
    NoCallsNoted(message, input);
    var parts := (if before == "" then [] else [TextPart(before)]) + [ReasoningPart(thought), TextPart(answer)];
    RecordOfThinking(before, thought, answer, finish);
    assert [] + TokensOf(markers, AT_START, input) == TokensOf(markers, AT_START, input);
  }

  lemma {:induction false} NoCallsNoted(message: nat, input: seq<BackendEvent>)
    requires forall i :: 0 <= i < |input| ==> !(input[i].Noted? && input[i].event.Call?)
    ensures CallsOf(message, NotedIn(input)) == []
  {
    NotedNoCalls(input);
    NoCallTokens(message, NotedIn(input));
  }

  lemma {:induction false} NotedNoCalls(input: seq<BackendEvent>)
    requires forall i :: 0 <= i < |input| ==> !(input[i].Noted? && input[i].event.Call?)
    ensures forall i :: 0 <= i < |NotedIn(input)| ==> !NotedIn(input)[i].Call?
    decreases |input|
  {
    if input != [] {
      NotedNoCalls(input[1..]);
    }
  }

  lemma {:induction false} NoCallTokens(message: nat, tokens: seq<TokenEvent>)
    requires forall i :: 0 <= i < |tokens| ==> !tokens[i].Call?
    ensures CallsOf(message, tokens) == []
  {
    if tokens != [] {
      NoCallTokens(message, tokens[..|tokens| - 1]);
    }
  }

  lemma {:induction false} RecordOfThinking(before: string, thought: string, answer: string, finish: Finish)
    requires thought != "" && answer != ""
    ensures var content := ContentOf((if before == "" then [] else [TextPart(before)]) + [ReasoningPart(thought), TextPart(answer)], []);
            RecordOf(content) == StreamModel.Reply(before + answer, Some(thought)) && WorthRecording(finish, content)
  {
    var first := if before == "" then [] else [TextPart(before)];
    var parts := first + [ReasoningPart(thought), TextPart(answer)];
    assert parts[|first|].ReasoningPart?;
    RecordOfAssembled(parts, []);
    hide ContentOf, PiecesOf, CallsIn;
    WordsOfThinking(before, thought, answer, Text);
    WordsOfThinking(before, thought, answer, Reasoning);
  }

  lemma {:induction false} WordsOfThinking(before: string, thought: string, answer: string, channel: Channel)
    ensures AssemblyStep.AllWords((if before == "" then [] else [TextPart(before)]) + [ReasoningPart(thought), TextPart(answer)], channel)
            == if channel == Text then before + answer else thought
  {
    hide AssemblyStep.AllWords;
    OnePart(before, channel);
    var none: seq<Part> := [];
    var first := if before == "" then none else [TextPart(before)];
    var two := first + [ReasoningPart(thought)];
    assert first + [ReasoningPart(thought), TextPart(answer)] == two + [TextPart(answer)];
    OneMorePart(first, ReasoningPart(thought), channel);
    OneMorePart(two, TextPart(answer), channel);
    assert before + "" == before && "" + thought == thought && thought + "" == thought;
  }

  lemma {:induction false} OnePart(before: string, channel: Channel)
    ensures AssemblyStep.AllWords([], channel) == ""
    ensures AssemblyStep.AllWords([TextPart(before)], channel) == if channel == Text then before else ""
  {
    assert [TextPart(before)][..0] == [];
  }

  lemma {:induction false} OneText(markers: Markers, text: string)
    ensures Lettered(markers, AT_START, [Written(text)]) == Flushed(Scan(markers, Text, text))
  {
    hide Scan, Letters;
    assert "" + text == text;
  }

  lemma {:induction false} ThinkingReply(markers: Markers, before: string, opening: string, inner: string, closing: string, outer: string)
    requires WellMarked(markers, before, opening, inner, closing, outer)
    ensures Flushed(Scan(markers, Text, ThinkingText(before, opening, inner, closing, outer)))
            == Letters(Text, before) + (Letters(Reasoning, inner) + Letters(Text, outer))
  {
    hide Scan, Letters, Decides, Quiet;
    ThinkingIsCutOut(markers, before, opening, inner, closing, outer);
  }
}
