/** A turn from the texts the backend writes, through scanner, assembler and stream, to the
    session: how the text between two chunks of speech is cut into tokens, and what else
    is reported in between, makes no difference to what is heard and recorded. */
module RawTurn {
  import opened Wrappers
  import opened BatchParts
  import opened ReplyScanner
  import opened Assembly
  import opened StreamModel
  import opened EventStreams
  import opened Recording

  // ── The same reply ────────────────────────────────────────────────────────

  /** What is written and spoken, with the text between two chunks of speech in one. */
  function Joined(before: string, events: seq<BackendEvent>): seq<BackendEvent>
    decreases |events|
  {
    if events == [] then [Written(before)]
    else match events[0]
      case Written(text) => Joined(before + text, events[1..])
      case Spoken(_, _) => [Written(before), events[0]] + Joined("", events[1..])
      case Noted(_) => Joined(before, events[1..])
  }

  /** Everything else that is reported. */
  function NotedIn(events: seq<BackendEvent>): seq<TokenEvent>
    decreases |events|
  {
    if events == [] then []
    else (if events[0].Noted? then [events[0].event] else []) + NotedIn(events[1..])
  }

  /** The same text and speech, however cut, and the same calls, statistics and notices,
      wherever they come in between. */
  predicate SameReply(a: seq<BackendEvent>, b: seq<BackendEvent>) {
    Joined("", a) == Joined("", b) && NotedIn(a) == NotedIn(b)
  }

  // ── In letters ────────────────────────────────────────────────────────────

  /** What is let through of the events, letter by letter, to the very end. */
  ghost function Lettered(markers: Markers, at: Standing, events: seq<BackendEvent>): seq<BatchParts.Item>
    decreases |events|
  {
    if events == [] then Letters(at.channel, at.pending)
    else match events[0]
      case Written(text) =>
        var s := Scan(markers, at.channel, at.pending + text);
        s.out + Lettered(markers, Standing(s.channel, s.pending), events[1..])
      case Spoken(rate, samples) =>
        Letters(at.channel, at.pending) + ([Speech(rate, samples)] + Lettered(markers, at.(pending := ""), events[1..]))
      case Noted(_) => Lettered(markers, at, events[1..])
  }

  /** Joining the text changes nothing: scanning goes on exactly where it stopped. */
  lemma {:induction false} JoinedReads(markers: Markers, at: Standing, before: string, events: seq<BackendEvent>)
    ensures var s := Scan(markers, at.channel, at.pending + before);
            Lettered(markers, at, Joined(before, events))
            == s.out + Lettered(markers, Standing(s.channel, s.pending), events)
    decreases |events|
  {
    hide Scan, Letters;
    var s := Scan(markers, at.channel, at.pending + before);
    if events == [] {
      assert Joined(before, events)[1..] == [];
    } else {
      match events[0] {
        case Written(text) =>
          JoinedReads(markers, at, before + text, events[1..]);
          assert (at.pending + before) + text == at.pending + (before + text);
          ScanInTwo(markers, at.channel, at.pending + before, text);
          var t := Scan(markers, s.channel, s.pending + text);
          Reassociate(s.out, t.out, Lettered(markers, Standing(t.channel, t.pending), events[1..]));
        case Spoken(_, _) => SpokenReads(markers, at, before, events);
        case Noted(_) => JoinedReads(markers, at, before, events[1..]);
      }
    }
  }

  lemma {:induction false} SpokenReads(markers: Markers, at: Standing, before: string, events: seq<BackendEvent>)
    requires events != [] && events[0].Spoken?
    ensures var s := Scan(markers, at.channel, at.pending + before);
            Lettered(markers, at, Joined(before, events))
            == s.out + Lettered(markers, Standing(s.channel, s.pending), events)
    decreases |events|, 0
  {
    var s := Scan(markers, at.channel, at.pending + before);
    var rest := Joined("", events[1..]);
    var quiet := Standing(s.channel, "");
    JoinedReads(markers, quiet, "", events[1..]);
    ScanNone(markers, quiet.channel);
    hide Scan, Letters;
    assert [] + Lettered(markers, quiet, events[1..]) == Lettered(markers, quiet, events[1..]);
    var joined := Joined(before, events);
    assert joined[1..] == [events[0]] + rest && joined[1..][1..] == rest;
  }

  lemma {:induction false} ScanNone(markers: Markers, channel: Channel)
    ensures Scan(markers, channel, "" + "") == Scanned([], channel, "")
  {}

  /** The whole reply in letters. */
  ghost function Reply(markers: Markers, events: seq<BackendEvent>): seq<BatchParts.Item> {
    Lettered(markers, AT_START, Joined("", events))
  }

  lemma {:induction false} ReplyIsLettered(markers: Markers, events: seq<BackendEvent>)
    ensures Reply(markers, events) == Lettered(markers, AT_START, events)
  {
    JoinedReads(markers, AT_START, "", events);
    ScanNone(markers, Text);
    hide Scan;
    assert [] + Lettered(markers, AT_START, events) == Lettered(markers, AT_START, events);
  }

  // ── Through scanner and assembler ─────────────────────────────────────────

  lemma {:induction false} ItemsOfFirst(first: TokenEvent, rest: seq<TokenEvent>)
    ensures ItemsOf([first] + rest) == ItemsOfOne(first) + ItemsOf(rest)
    decreases |rest|
  {
    hide ItemsOf, ItemsOfOne, CallsOf, UnnamedIn, LastStats, ShedOf;
    if rest == [] {
      OneMoreToken(0, [], first);
      NoItems();
      assert [first] + rest == [] + [first];
      assert [] + ItemsOfOne(first) == ItemsOfOne(first) + [];
    } else {
      var most, last := rest[..|rest| - 1], rest[|rest| - 1];
      ItemsOfFirst(first, most);
      OneMoreToken(0, most, last);
      OneMoreToken(0, [first] + most, last);
      assert rest == most + [last] && [first] + rest == ([first] + most) + [last];
      Reassociate(ItemsOfOne(first), ItemsOf(most), ItemsOfOne(last));
    }
  }

  lemma {:induction false} NoItems()
    ensures ItemsOf([]) == []
  {}

  /** The tokens make the runs that the letters make. */
  lemma {:induction false} RunsOfTokens(markers: Markers, at: Standing, events: seq<BackendEvent>, before: seq<BatchParts.Item>,
                                        letters: seq<BatchParts.Item>)
    requires Runs(before) == Runs(letters)
    ensures Runs(before + (ItemsOf(TokensOf(markers, at, events)) + AsItems(PendingAfter(markers, at, events))))
            == Runs(letters + Lettered(markers, at, events))
    decreases |events|
  {
    hide Runs, Letters, Spelled, SplitOf, Scan, Closed, NonEmptySlices;
    if events == [] {
      ClosedSpells(at.channel, at.pending);
      RunsOfSlices(before, letters, Closed(at.channel, at.pending));
      assert [] + AsItems(Closed(at.channel, at.pending)) == AsItems(Closed(at.channel, at.pending));
    } else {
      var token, next := TokenOf(markers, at, events[0]), StandingAfter(markers, at, events[0]);
      var rest := events[1..];
      var items, said := ItemsOfOne(token), LettersOfOne(markers, at, events[0]);
      RunsOfToken(markers, at, events[0], before, letters);
      RunsOfTokens(markers, next, rest, before + items, letters + said);
      ItemsOfFirst(token, TokensOf(markers, next, rest));
      LetteredFirst(markers, at, events);
      Reassociate(items, ItemsOf(TokensOf(markers, next, rest)), AsItems(PendingAfter(markers, next, rest)));
      Reassociate(before, items, ItemsOf(TokensOf(markers, next, rest)) + AsItems(PendingAfter(markers, next, rest)));
      Reassociate(letters, said, Lettered(markers, next, rest));
    }
  }

  /** What is let through at one event. */
  ghost function LettersOfOne(markers: Markers, at: Standing, event: BackendEvent): seq<BatchParts.Item> {
    match event
    case Written(text) => Scan(markers, at.channel, at.pending + text).out
    case Spoken(rate, samples) => Letters(at.channel, at.pending) + [Speech(rate, samples)]
    case Noted(_) => []
  }

  lemma {:induction false} LetteredFirst(markers: Markers, at: Standing, events: seq<BackendEvent>)
    requires events != []
    ensures Lettered(markers, at, events)
            == LettersOfOne(markers, at, events[0]) + Lettered(markers, StandingAfter(markers, at, events[0]), events[1..])
  {
    hide Scan, Letters, SplitOf;
    match events[0] {
      case Written(text) => SplitSpells(markers, at.channel, "", at.pending + text);
      case Spoken(rate, samples) =>
        Reassociate(Letters(at.channel, at.pending), [Speech(rate, samples)], Lettered(markers, at.(pending := ""), events[1..]));
      case Noted(_) => assert [] + Lettered(markers, at, events[1..]) == Lettered(markers, at, events[1..]);
    }
  }

  lemma {:induction false} RunsOfToken(markers: Markers, at: Standing, event: BackendEvent, before: seq<BatchParts.Item>,
                                       letters: seq<BatchParts.Item>)
    requires Runs(before) == Runs(letters)
    ensures Runs(before + ItemsOfOne(TokenOf(markers, at, event))) == Runs(letters + LettersOfOne(markers, at, event))
  {
    match event {
      case Written(text) =>
        hide Runs, Spelled, SplitOf, Scan, NonEmptySlices;
        SplitSpells(markers, at.channel, "", at.pending + text);
        NoLetters(at.channel, Scan(markers, at.channel, at.pending + text).out);
        RunsOfSlices(before, letters, SplitOf(markers, at.channel, "", at.pending + text).slices);
      case Spoken(rate, samples) =>
        hide Runs, Spelled, SplitOf, Letters, Closed, NonEmptySlices;
        var slices, sound := Closed(at.channel, at.pending), [Speech(rate, samples)];
        ClosedSpells(at.channel, at.pending);
        RunsOfSlices(before, letters, slices);
        SameRunsAfter(before + AsItems(slices), letters + Letters(at.channel, at.pending), sound);
        Reassociate(before, AsItems(slices), sound);
        Reassociate(letters, Letters(at.channel, at.pending), sound);
      case Noted(e) =>
        assert ItemsOfOne(e) == [] && before + [] == before && letters + [] == letters;
    }
  }

  /** The parts of the message are what the batch computation makes of the whole reply. */
  lemma {:induction false} PartsOfReply(markers: Markers, events: seq<BackendEvent>)
    ensures PartsAfter(TokensOf(markers, AT_START, events), PendingAfter(markers, AT_START, events))
            == PartsOf(Runs(Reply(markers, events)))
  {
    hide Reply, Runs, PartsOf, TokensOf, PendingAfter, Lettered, ItemsOf;
    RunsOfTokens(markers, AT_START, events, [], []);
    ReplyIsLettered(markers, events);
    var items := ItemsOf(TokensOf(markers, AT_START, events)) + AsItems(PendingAfter(markers, AT_START, events));
    assert [] + items == items;
    assert [] + Lettered(markers, AT_START, events) == Lettered(markers, AT_START, events);
  }

  // ── Everything else ───────────────────────────────────────────────────────

  predicate SameNotes(message: nat, a: seq<TokenEvent>, b: seq<TokenEvent>) {
    && CallsOf(message, a) == CallsOf(message, b) && UnnamedIn(a) == UnnamedIn(b)
    && LastStats(a) == LastStats(b) && ShedOf(a) == ShedOf(b)
  }

  lemma {:induction false} SameNotesOn(message: nat, a: seq<TokenEvent>, b: seq<TokenEvent>, token: TokenEvent)
    requires SameNotes(message, a, b)
    ensures SameNotes(message, a + [token], b + [token])
    ensures token.Token? || token.SpeechChunk? ==> SameNotes(message, a + [token], b)
  {
    hide CallsOf, UnnamedIn, LastStats, ShedOf, ItemsOf, ItemsOfOne, CallFrom;
    OneMoreToken(message, a, token);
    OneMoreToken(message, b, token);
    NoCallMore(CallsOf(message, a));
  }

  lemma {:induction false} NoCallMore(calls: seq<ToolCall>)
    ensures calls + [] == calls
  {}

  /** Calls, statistics and notices of the tokens are those noted, in their order. */
  lemma {:induction false} NotesOfTokens(message: nat, markers: Markers, at: Standing, events: seq<BackendEvent>, a: seq<TokenEvent>,
                                         b: seq<TokenEvent>)
    requires SameNotes(message, a, b)
    ensures SameNotes(message, a + TokensOf(markers, at, events), b + NotedIn(events))
    decreases |events|
  {
    hide SameNotes, TokenOf, StandingAfter;
    if events == [] {
      assert a + [] == a && b + [] == b;
    } else {
      var token, next, rest := TokenOf(markers, at, events[0]), StandingAfter(markers, at, events[0]), events[1..];
      var noted := if events[0].Noted? then [token] else [];
      assert (events[0].Noted? ==> token == events[0].event) && (!events[0].Noted? ==> token.Token? || token.SpeechChunk?) by {
        KindOfToken(markers, at, events[0]);
      }
      SameNotesOn(message, a, b, token);
      assert b + [] == b;
      NotesOfTokens(message, markers, next, rest, a + [token], b + noted);
      assert (a + [token]) + TokensOf(markers, next, rest) == a + ([token] + TokensOf(markers, next, rest));
      assert (b + noted) + NotedIn(rest) == b + (noted + NotedIn(rest));
    }
  }

  lemma {:induction false} KindOfToken(markers: Markers, at: Standing, event: BackendEvent)
    ensures var token := TokenOf(markers, at, event);
            if event.Noted? then token == event.event else token.Token? || token.SpeechChunk?
  {}

  lemma {:induction false} NotesOfReply(message: nat, markers: Markers, events: seq<BackendEvent>)
    ensures SameNotes(message, TokensOf(markers, AT_START, events), NotedIn(events))
  {
    NotesOfTokens(message, markers, AT_START, events, [], []);
    hide SameNotes;
    assert [] + TokensOf(markers, AT_START, events) == TokensOf(markers, AT_START, events);
    assert [] + NotedIn(events) == NotedIn(events);
  }

  // ── The main result ───────────────────────────────────────────────────────

  /** What a turn over raw events hands out when it does not fail. */
  ghost function Delivered(markers: Markers, message: nat, maxTokens: Option<nat>, input: seq<BackendEvent>, finish: Finish): seq<Event> {
    HandedOut(message, maxTokens, TokensOf(markers, AT_START, input), finish, PendingAfter(markers, AT_START, input))
  }

  /** What is heard is the same on both channels, and so are the calls and whether there
      was speech. */
  ghost predicate HeardAlike(a: seq<Event>, b: seq<Event>) {
    && Heard(a, Text) == Heard(b, Text) && Heard(a, Reasoning) == Heard(b, Reasoning)
    && HeardCalls(a) == HeardCalls(b) && HeardSpeech(a) == HeardSpeech(b)
  }

  lemma {:induction false} SameHearing(markers: Markers, message: nat, maxTokens: Option<nat>, a: seq<BackendEvent>, b: seq<BackendEvent>,
                                       finish: Finish)
    requires SameReply(a, b)
    ensures HeardAlike(Delivered(markers, message, maxTokens, a, finish), Delivered(markers, message, maxTokens, b, finish))
  {
    hide HandedOut, Heard, HeardCalls, HeardSpeech, TokensOf, PendingAfter, PartsAfter, PartsOf, Runs, CallsOf, UnnamedIn, LastStats,
         ShedOf, SpeechIn, Joined, NotedIn;
    PartsOfReply(markers, a);
    PartsOfReply(markers, b);
    NotesOfReply(message, markers, a);
    NotesOfReply(message, markers, b);
    HearingOf(markers, message, maxTokens, a, finish);
    HearingOf(markers, message, maxTokens, b, finish);
  }

  ghost predicate HandedOutAs(markers: Markers, message: nat, maxTokens: Option<nat>, input: seq<BackendEvent>, finish: Finish) {
    var tokens, pending := TokensOf(markers, AT_START, input), PendingAfter(markers, AT_START, input);
    var received, parts := Delivered(markers, message, maxTokens, input, finish), PartsAfter(tokens, pending);
    && Heard(received, Text) == AssemblyStep.AllWords(parts, Text)
    && Heard(received, Reasoning) == AssemblyStep.AllWords(parts, Reasoning)
    && HeardSpeech(received) == SpeechIn(parts) && HeardCalls(received) == CallsOf(message, tokens)
  }

  lemma {:induction false} HearingOf(markers: Markers, message: nat, maxTokens: Option<nat>, input: seq<BackendEvent>, finish: Finish)
    ensures HandedOutAs(markers, message, maxTokens, input, finish)
  {
    hide HandedOut, Heard, HeardCalls, HeardSpeech, TokensOf, PendingAfter, PartsAfter, CallsOf, SpeechIn;
    var tokens, pending := TokensOf(markers, AT_START, input), PendingAfter(markers, AT_START, input);
    HeardIsTheMessage(message, maxTokens, tokens, finish, pending, Text);
    HeardIsTheMessage(message, maxTokens, tokens, finish, pending, Reasoning);
    HandedOutCalls(message, maxTokens, tokens, finish, pending);
  }

  /** What a turn comes to depends on its parts, its calls, its statistics and its notices
      only. */
  lemma {:induction false} SameOutcomeFrom(message: nat, maxTokens: Option<nat>, a: seq<TokenEvent>, before: Ending, b: seq<TokenEvent>,
                                           after: Ending, closeAfter: bool, s: Transcript)
    requires SameNotes(message, a, b)
    requires match (before, after)
             case (Completed(f, p), Completed(g, q)) => f == g && PartsAfter(a, p) == PartsAfter(b, q)
             case (Broken(d), Broken(e)) => d == e
             case _ => false
    ensures OutcomeOf(NewCore(message, maxTokens, a, before, closeAfter), s)
            == OutcomeOf(NewCore(message, maxTokens, b, after, closeAfter), s)
  {
    hide PartsAfter, CallsOf, UnnamedIn, LastStats, ShedOf, ContentOf, RecordOf, WorthRecording, ReasonFor;
    assert [] + a == a && [] + b == b;
  }

  /** Two turns with the same reply come to the same session and the same response, and
      the same is heard in them, wherever the tokens of the text are cut: within a marker,
      within a run of whitespace, or nowhere at all. */
  lemma {:induction false} CutsDoNotMatter(markers: Markers, message: nat, maxTokens: Option<nat>, a: seq<BackendEvent>,
                                           b: seq<BackendEvent>, ends: Result<Finish, Error>, closeAfter: bool, s: Transcript)
    requires SameReply(a, b)
    ensures OutcomeOf(CoreFor(markers, message, maxTokens, a, ends, closeAfter), s)
            == OutcomeOf(CoreFor(markers, message, maxTokens, b, ends, closeAfter), s)
    ensures ends.Ok? ==>
              HeardAlike(Delivered(markers, message, maxTokens, a, ends.value), Delivered(markers, message, maxTokens, b, ends.value))
  {
    hide TokensOf, PendingAfter, PartsAfter, PartsOf, Runs, SameNotes, Joined, NotedIn, HeardAlike, Delivered, OutcomeOf, NewCore;
    if ends.Ok? {
      SameHearing(markers, message, maxTokens, a, b, ends.value);
    }
    PartsOfReply(markers, a);
    PartsOfReply(markers, b);
    NotesOfReply(message, markers, a);
    NotesOfReply(message, markers, b);
    SameNotesBoth(message, TokensOf(markers, AT_START, a), TokensOf(markers, AT_START, b), NotedIn(a));
    SameOutcomeFrom(message, maxTokens, TokensOf(markers, AT_START, a), EndingOf(ends, PendingAfter(markers, AT_START, a)),
                    TokensOf(markers, AT_START, b), EndingOf(ends, PendingAfter(markers, AT_START, b)), closeAfter, s);
  }

  lemma {:induction false} SameNotesBoth(message: nat, a: seq<TokenEvent>, b: seq<TokenEvent>, notes: seq<TokenEvent>)
    requires SameNotes(message, a, notes) && SameNotes(message, b, notes)
    ensures SameNotes(message, a, b)
  {}

  /** From the backend's texts to the session: the iterator hands out what `Delivered` says
      and the session gains exactly what its consumer would write down from that. */
  lemma {:induction false} RawRecordedIsReceived(markers: Markers, message: nat, maxTokens: Option<nat>, input: seq<BackendEvent>,
                                                 finish: Finish, closeAfter: bool, s: Transcript)
    ensures var c := CoreFor(markers, message, maxTokens, input, Ok(finish), closeAfter);
            var received := Delivered(markers, message, maxTokens, input, finish);
            var recorded := finish != Stopped || HeardAnything(received);
            var outcome := OutcomeOf(c, s);
            && Drains(c, s, received, outcome)
            && outcome.response.Some? && outcome.failed.None?
            && outcome.transcript.messages == s.messages + (if recorded then [Transcribed(received)] else [])
            && outcome.response.value.messageId == (if recorded then Some(|s.messages|) else None)
  {
    hide HandedOut, OutcomeOf, HeardAnything, Transcribed, Drains, TokensOf, PendingAfter;
    RecordedIsReceived(message, maxTokens, TokensOf(markers, AT_START, input), finish, PendingAfter(markers, AT_START, input),
                       closeAfter, s);
  }

  // ── A reply of text alone ─────────────────────────────────────────────────

  function AllWritten(tokens: seq<string>): seq<BackendEvent> {
    seq(|tokens|, i requires 0 <= i < |tokens| => Written(tokens[i]))
  }

  lemma {:induction false} WrittenInOne(before: string, tokens: seq<string>)
    ensures Joined(before, AllWritten(tokens)) == [Written(before + BatchParts.Concat(tokens))]
    decreases |tokens|
  {
    if tokens == [] {
      assert before + "" == before;
    } else {
      var rest := tokens[1..];
      assert AllWritten(tokens)[1..] == AllWritten(rest);
      WrittenInOne(before + tokens[0], rest);
      ConcatFirst(tokens[0], rest);
      assert tokens == [tokens[0]] + rest;
      assert (before + tokens[0]) + BatchParts.Concat(rest) == before + (tokens[0] + BatchParts.Concat(rest));
    }
  }

  lemma {:induction false} ConcatFirst(first: string, rest: seq<string>)
    ensures BatchParts.Concat([first] + rest) == first + BatchParts.Concat(rest)
    decreases |rest|
  {
    var all := [first] + rest;
    if rest == [] {
      assert all[..0] == [] && "" + first == first + "";
    } else {
      var most, last := rest[..|rest| - 1], rest[|rest| - 1];
      ConcatFirst(first, most);
      assert all[..|all| - 1] == [first] + most;
      assert (first + BatchParts.Concat(most)) + last == first + (BatchParts.Concat(most) + last);
    }
  }

  lemma {:induction false} NothingNoted(events: seq<BackendEvent>)
    requires forall i :: 0 <= i < |events| ==> !events[i].Noted?
    ensures NotedIn(events) == []
    decreases |events|
  {
    if events != [] {
      NothingNoted(events[1..]);
    }
  }

  /** The whole text in letters: scanned at once, with what is held at the end. */
  ghost function Whole(markers: Markers, text: string): seq<BatchParts.Item> {
    Flushed(Scan(markers, Text, text))
  }

  /** A reply streamed token by token through the scanner and the assembler. The message
      depends on the text alone: wherever the tokens are cut, it is what the batch
      computation makes of the text scanned at once. */
  method AssembleText(markers: Markers, tokens: seq<string>, finish: Finish) returns (content: seq<OutputPart>)
    ensures content == ContentOf(PartsOf(Runs(Whole(markers, BatchParts.Concat(tokens)))), [])
  {
    hide Scan, PartsOf, Runs, ContentOf, CallsOf, ItemsOf, TokensOf, PendingAfter, Letters, Joined, NotedIn;
    var events := AllWritten(tokens);
    PartsOfReply(markers, events);
    NotesOfReply(0, markers, events);
    NothingNoted(events);
    WrittenInOne("", tokens);
    TextIsWhole(markers, BatchParts.Concat(tokens));
    var reported, reason;
    reported, content, reason := Assemble(markers, 0, None, events, finish);
  }

  lemma {:induction false} TextIsWhole(markers: Markers, text: string)
    ensures Lettered(markers, AT_START, [Written("" + text)]) == Whole(markers, text)
    ensures CallsOf(0, []) == []
  {
    hide Scan, Letters;
    assert "" + ("" + text) == text;
  }
}
