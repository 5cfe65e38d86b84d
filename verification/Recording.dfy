/** What a completed turn leaves in the session, against what its consumer was handed:
    from the backend's token events, through assembler, stream and session, to both. */
module Recording {
  import opened Wrappers
  import opened BatchParts
  import opened AssemblyStep
  import opened ReplyScanner
  import opened Assembly
  import opened StreamModel
  import opened EventStreams
  import Bridges = AsyncBridge

  // ── What a consumer can tell from the events ──────────────────────────────

  /** What the deltas of a channel say, one behind the other. */
  function Heard(received: seq<Event>, channel: Channel): string {
    AllWords(Deltas(received), channel)
  }

  function HeardSpeech(received: seq<Event>): bool {
    exists i :: 0 <= i < |received| && received[i].Delta? && received[i].part.SpeechPart?
  }

  /** The calls that were ended. */
  function HeardCalls(received: seq<Event>): seq<ToolCall> {
    if received == [] then []
    else HeardCalls(received[..|received| - 1])
         + (if received[|received| - 1].ToolCallEnd? then [received[|received| - 1].call] else [])
  }

  /** The message a consumer would write down. */
  function Transcribed(received: seq<Event>): Recorded {
    var reasoning := Heard(received, Reasoning);
    if HeardCalls(received) != [] then Calls(HeardCalls(received))
    else Reply(Heard(received, Text), if reasoning == "" then None else Some(reasoning))
  }

  predicate HeardAnything(received: seq<Event>) {
    Heard(received, Text) != "" || Heard(received, Reasoning) != "" || HeardCalls(received) != [] || HeardSpeech(received)
  }

  // ── Calls ─────────────────────────────────────────────────────────────────

  lemma {:induction false} CallsOfTwo(a: seq<Event>, b: seq<Event>)
    ensures HeardCalls(a + b) == HeardCalls(a) + HeardCalls(b)
    decreases |b|
  {
    if b == [] {
      assert a + b == a;
    } else {
      var most, last := b[..|b| - 1], b[|b| - 1];
      CallsOfTwo(a, most);
      assert (a + b)[..|a + b| - 1] == a + most && (a + b)[|a + b| - 1] == last;
      Reassociate(HeardCalls(a), HeardCalls(most), if last.ToolCallEnd? then [last.call] else []);
    }
  }

  lemma {:induction false} NoCalls(events: seq<Event>)
    requires forall i :: 0 <= i < |events| ==> !events[i].ToolCallEnd?
    ensures HeardCalls(events) == []
  {
    if events != [] {
      NoCalls(events[..|events| - 1]);
    }
  }

  lemma {:induction false} SlicesAreDeltas(items: seq<BatchParts.Item>, slices: seq<Slice>)
    ensures forall i :: 0 <= i < |SlicesEvents(items, slices)| ==> SlicesEvents(items, slices)[i].Delta?
    decreases |slices|
  {
    hide AbsorbedBehind;
    if slices != [] {
      SlicesAreDeltas(items, slices[..|slices| - 1]);
    }
  }

  lemma {:induction false} EventCalls(message: nat, history: seq<TokenEvent>, event: TokenEvent)
    ensures HeardCalls(EventsOf(message, history, event)) == CallsOfOne(message, UnnamedIn(history), event)
  {
    hide SlicesEvents, ItemsOf, UnnamedIn;
    match event {
      case Token(slices) =>
        SlicesAreDeltas(ItemsOf(history), slices);
        NoCalls(EventsOf(message, history, event));
      case SpeechChunk(pending, _, _) =>
        SlicesAreDeltas(ItemsOf(history), pending);
        NoCalls(EventsOf(message, history, event));
      case Call(id, name, arguments) =>
        var call := CallFrom(message, UnnamedIn(history), id, name, arguments);
        var opening := [ToolCallStart(call.id, call.name), ToolCallArgumentsDelta(call.id, call.arguments)];
        NoCalls(opening);
        assert CallEvents(call)[..2] == opening;
      case _ => NoCalls([]);
    }
  }

  /** The calls ended are the calls of the turn, under the ids they are recorded with. */
  lemma {:induction false} AllCalls(message: nat, history: seq<TokenEvent>)
    ensures HeardCalls(AllEvents(message, history)) == CallsOf(message, history)
    decreases |history|
  {
    hide EventsOf, CallsOfOne, UnnamedIn, HeardCalls;
    if history == [] {
      NoCalls([]);
    } else {
      var most, last := history[..|history| - 1], history[|history| - 1];
      AllCalls(message, most);
      EventCalls(message, most, last);
      CallsOfTwo(AllEvents(message, most), EventsOf(message, most, last));
    }
  }

  lemma {:induction false} HandedOutCalls(message: nat, maxTokens: Option<nat>, tokens: seq<TokenEvent>, finish: Finish, pending: seq<Slice>)
    ensures HeardCalls(HandedOut(message, maxTokens, tokens, finish, pending)) == CallsOf(message, tokens)
  {
    hide AllEvents, SlicesEvents, ItemsOf, CallsOf, HeardCalls, ReasonAfter, LastStats;
    SlicesAreDeltas(ItemsOf(tokens), pending);
    var closing := FinishEvents(message, maxTokens, tokens, finish, pending);
    AllCalls(message, tokens);
    NoCalls(closing);
    CallsOfTwo(AllEvents(message, tokens), closing);
    assert CallsOf(message, tokens) + [] == CallsOf(message, tokens);
  }

  // ── Words and speech ──────────────────────────────────────────────────────

  /** A part's deltas are of its kind. */
  lemma {:induction false} SpelledKind(group: seq<Part>, part: Part)
    requires Spells(group, part)
    ensures group != [] && forall i :: 0 <= i < |group| ==> (group[i].SpeechPart? <==> part.SpeechPart?)
    decreases |group|
  {
    if |group| > 1 {
      var most, last := group[..|group| - 1], group[|group| - 1];
      SpelledKind(most, JoinAll(most).value);
      assert forall i :: 0 <= i < |most| ==> group[i] == most[i];
    }
  }

  lemma {:induction false} SpeechInTwo(a: seq<Part>, b: seq<Part>)
    ensures SpeechIn(a + b) <==> SpeechIn(a) || SpeechIn(b)
  {
    forall i | 0 <= i < |a|
      ensures (a + b)[i] == a[i]
    {}
    forall i | 0 <= i < |b|
      ensures (a + b)[|a| + i] == b[i]
    {}
  }

  lemma {:induction false} SpokenGroups(groups: seq<seq<Part>>, parts: seq<Part>)
    requires Grouped(groups, parts)
    ensures SpeechIn(Flatten(groups)) <==> SpeechIn(parts)
    decreases |parts|
  {
    if parts != [] {
      var last := |parts| - 1;
      SpokenGroups(groups[..last], parts[..last]);
      SpelledKind(groups[last], parts[last]);
      SpeechInTwo(Flatten(groups[..last]), groups[last]);
      SpeechInTwo(parts[..last], [parts[last]]);
      assert parts == parts[..last] + [parts[last]] && [parts[last]][0] == parts[last];
      assert groups[last][0].SpeechPart? <==> parts[last].SpeechPart?;
    }
  }

  lemma {:induction false} HeardSpeechIsDeltas(events: seq<Event>)
    ensures HeardSpeech(events) <==> SpeechIn(Deltas(events))
  {
    if events != [] {
      var most, last := events[..|events| - 1], events[|events| - 1];
      HeardSpeechIsDeltas(most);
      var part := if last.Delta? then [last.part] else [];
      SpeechInTwo(Deltas(most), part);
      assert part != [] ==> part[0] == last.part;
      assert forall i :: 0 <= i < |most| ==> events[i] == most[i];
    }
  }

  lemma {:induction false} WordsInReasoning(parts: seq<Part>)
    requires forall i :: 0 <= i < |parts| ==> !IsEmpty(parts[i])
    ensures ReasoningIn(parts) <==> AllWords(parts, Reasoning) != ""
  {
    if parts != [] {
      var most, last := parts[..|parts| - 1], parts[|parts| - 1];
      WordsInReasoning(most);
      assert forall i :: 0 <= i < |most| ==> parts[i] == most[i];
    }
  }

  /** The deltas handed out agree with the parts of the message, channel by channel. */
  lemma {:induction false} HeardIsTheMessage(message: nat, maxTokens: Option<nat>, tokens: seq<TokenEvent>, finish: Finish,
                                             pending: seq<Slice>, channel: Channel)
    ensures var received := HandedOut(message, maxTokens, tokens, finish, pending);
            && Heard(received, channel) == AllWords(PartsAfter(tokens, pending), channel)
            && (HeardSpeech(received) <==> SpeechIn(PartsAfter(tokens, pending)))
  {
    hide AllEvents, FinishEvents, PartsOf, Runs, ItemsOf, Grouped, Flatten, Deltas, AllWords, SpeechIn, HeardSpeech;
    var received := HandedOut(message, maxTokens, tokens, finish, pending);
    TurnSpells(message, maxTokens, tokens, finish, pending);
    var parts := PartsAfter(tokens, pending);
    var groups: seq<seq<Part>> :| Grouped(groups, parts) && Flatten(groups) == Deltas(received);
    DeltasSpellTheMessage(groups, parts, channel);
    SpokenGroups(groups, parts);
    HeardSpeechIsDeltas(received);
  }

  // ── The main result ───────────────────────────────────────────────────────

  /** The message a turn records is the one its consumer would write down from the events
      alone. */
  lemma {:induction false} SameMessage(message: nat, maxTokens: Option<nat>, tokens: seq<TokenEvent>, finish: Finish, pending: seq<Slice>)
    ensures var received := HandedOut(message, maxTokens, tokens, finish, pending);
            var content := ContentOf(PartsAfter(tokens, pending), CallsOf(message, tokens));
            && RecordOf(content) == Transcribed(received)
            && (WorthRecording(finish, content) <==> finish != Stopped || HeardAnything(received))
  {
    hide HandedOut, Heard, HeardCalls, HeardSpeech, PartsAfter, CallsOf, ContentOf, ReasoningIn, SpeechIn;
    var parts, calls := PartsAfter(tokens, pending), CallsOf(message, tokens);
    HeardIsTheMessage(message, maxTokens, tokens, finish, pending, Text);
    HeardIsTheMessage(message, maxTokens, tokens, finish, pending, Reasoning);
    HandedOutCalls(message, maxTokens, tokens, finish, pending);
    RecordOfAssembled(parts, calls);
    NoEmptyPart(tokens, pending);
    WordsInReasoning(parts);
  }

  lemma {:induction false} NoEmptyPart(tokens: seq<TokenEvent>, pending: seq<Slice>)
    ensures var parts := PartsAfter(tokens, pending); forall i :: 0 <= i < |parts| ==> !IsEmpty(parts[i])
  {
    hide PartsOf, Runs, ItemsOf;
    PartsAreTidy(Runs(ItemsOf(tokens) + AsItems(pending)));
  }

  /** What a new stream is heading for. */
  lemma {:induction false} OutcomeOfNew(message: nat, maxTokens: Option<nat>, tokens: seq<TokenEvent>, finish: Finish,
                                        pending: seq<Slice>, closeAfter: bool, s: Transcript)
    ensures var c := NewCore(message, maxTokens, tokens, Completed(finish, pending), closeAfter);
            var received := HandedOut(message, maxTokens, tokens, finish, pending);
            var recorded := finish != Stopped || HeardAnything(received);
            var outcome := OutcomeOf(c, s);
            && outcome.response.Some? && outcome.failed.None?
            && outcome.transcript.messages == s.messages + (if recorded then [Transcribed(received)] else [])
            && outcome.response.value.messageId == (if recorded then Some(|s.messages|) else None)
  {
    hide HandedOut, RecordOf, WorthRecording, HeardAnything, Transcribed, ContentOf, PartsAfter, CallsOf, LastStats, ShedOf,
         ReasonAfter;
    SameMessage(message, maxTokens, tokens, finish, pending);
    assert [] + tokens == tokens;
  }

  /** Called again and again, the iterator hands out `events` and then nothing, and by
      then has come to `outcome`. */
  ghost predicate Drains(c: Core, s: Transcript, events: seq<Event>, outcome: Outcome)
    requires Coherent(c)
  {
    && (forall k: nat :: k < |events| ==> AfterCalls(c, s, k + 1).item == Some(Ok(events[k])))
    && var n := AfterCalls(c, s, |events| + 1);
       n.item == None && outcome == Outcome(n.transcript, n.core.response, n.core.failed)
  }

  lemma {:induction false} RemainingDrains(c: Core, s: Transcript, events: seq<Event>)
    requires Coherent(c) && Remaining(c) == Oks(events)
    ensures Drains(c, s, events, OutcomeOf(c, s))
  {
    hide AfterCalls, Remaining, OutcomeOf, Coherent;
    forall k: nat | k < |events|
      ensures AfterCalls(c, s, k + 1).item == Some(Ok(events[k]))
    {
      KthCall(c, s, k + 1);
    }
    KthCall(c, s, |events| + 1);
  }

  /** Whatever the backend produces in a turn that does not fail, the iterator hands out
      the assembler's events one by one; the session gains a message exactly when the
      turn was not stopped or anything at all was handed out; that message is the one the
      consumer would write down, and its id goes into the response. */
  lemma {:induction false} RecordedIsReceived(message: nat, maxTokens: Option<nat>, tokens: seq<TokenEvent>, finish: Finish,
                                              pending: seq<Slice>, closeAfter: bool, s: Transcript)
    ensures var c := NewCore(message, maxTokens, tokens, Completed(finish, pending), closeAfter);
            var received := HandedOut(message, maxTokens, tokens, finish, pending);
            var recorded := finish != Stopped || HeardAnything(received);
            var outcome := OutcomeOf(c, s);
            && Drains(c, s, received, outcome)
            && outcome.response.Some? && outcome.failed.None?
            && outcome.transcript.messages == s.messages + (if recorded then [Transcribed(received)] else [])
            && outcome.response.value.messageId == (if recorded then Some(|s.messages|) else None)
  {
    hide HandedOut, Remaining, OutcomeOf, HeardAnything, Transcribed, Drains;
    var c := NewCore(message, maxTokens, tokens, Completed(finish, pending), closeAfter);
    RemainingOfNew(message, maxTokens, tokens, Completed(finish, pending), closeAfter);
    OutcomeOfNew(message, maxTokens, tokens, finish, pending, closeAfter, s);
    RemainingDrains(c, s, HandedOut(message, maxTokens, tokens, finish, pending));
  }

  /** And so it is for an async turn, however worker and consumer interleave. */
  lemma {:induction false} RecordedIsReceivedAsync(message: nat, maxTokens: Option<nat>, tokens: seq<TokenEvent>, finish: Finish,
                                                   pending: seq<Slice>, closeAfter: bool, s: Transcript, steps: seq<Bridges.Step>)
    requires var c := NewCore(message, maxTokens, tokens, Completed(finish, pending), closeAfter);
             Bridges.ValidRun(Bridges.Start(c, s), steps) && Bridges.After(Bridges.Start(c, s), steps).ended
    ensures var c := NewCore(message, maxTokens, tokens, Completed(finish, pending), closeAfter);
            var b := Bridges.After(Bridges.Start(c, s), steps);
            var received := HandedOut(message, maxTokens, tokens, finish, pending);
            var recorded := finish != Stopped || HeardAnything(received);
            && b.consumed == Oks(received) && b.tail.Some? && b.tail.value.response.Some? && b.tail.value.failed.None?
            && b.transcript.messages == s.messages + (if recorded then [Transcribed(received)] else [])
            && b.tail.value.response.value.messageId == (if recorded then Some(|s.messages|) else None)
  {
    hide HandedOut, Remaining, OutcomeOf, HeardAnything, Transcribed, Bridges.Start, Bridges.After, Bridges.Inv, Bridges.ValidRun;
    var c := NewCore(message, maxTokens, tokens, Completed(finish, pending), closeAfter);
    RemainingOfNew(message, maxTokens, tokens, Completed(finish, pending), closeAfter);
    OutcomeOfNew(message, maxTokens, tokens, finish, pending, closeAfter, s);
    Bridges.StartInv(c, s);
    Bridges.RunKeepsInv(Bridges.Start(c, s), steps, c, s);
    Bridges.EndedMeansAll(Bridges.After(Bridges.Start(c, s), steps), c, s);
  }
}
