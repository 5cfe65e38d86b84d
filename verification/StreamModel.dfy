/** The life of one turn's event stream in src/api/event.rs, on values: what each pull
    hands out, what completion writes, and what is still to come. */
module StreamModel {
  import opened Wrappers
  import opened BatchParts
  import AssemblyStep
  import opened ReplyScanner
  import opened Assembly

  datatype Error = Error(code: string, message: string)

  /** What an iteration yields. */
  type Item = Result<Event, Error>

  /** How the backend's stream ends: with what the scanner still holds, or by failing. */
  datatype Ending = Completed(finish: Finish, pending: seq<Slice>) | Broken(error: Error)

  // ── The session ───────────────────────────────────────────────────────────

  /** The transcript message an assistant turn becomes. */
  datatype Recorded = Calls(calls: seq<ToolCall>) | Reply(text: string, reasoning: Option<string>)

  /** A message's id is its place in the transcript. */
  datatype Transcript = Transcript(messages: seq<Recorded>, isOpen: bool, shed: nat)

  function PiecesOf(content: seq<OutputPart>): seq<Part> {
    if content == [] then []
    else PiecesOf(content[..|content| - 1])
         + (if content[|content| - 1].Piece? then [content[|content| - 1].part] else [])
  }

  function CallsIn(content: seq<OutputPart>): seq<ToolCall> {
    if content == [] then []
    else CallsIn(content[..|content| - 1])
         + (if content[|content| - 1].Called? then [content[|content| - 1].call] else [])
  }

  function TextOf(content: seq<OutputPart>): string {
    AssemblyStep.AllWords(PiecesOf(content), Text)
  }

  function ReasoningOf(content: seq<OutputPart>): Option<string> {
    if HasReasoningPart(content)
    then Some(AssemblyStep.AllWords(PiecesOf(content), Reasoning)) else None
  }

  predicate HasReasoningPart(content: seq<OutputPart>) {
    exists i :: 0 <= i < |content| && content[i].Piece? && content[i].part.ReasoningPart?
  }

  predicate HasSpeech(content: seq<OutputPart>) {
    exists i :: 0 <= i < |content| && content[i].Piece? && content[i].part.SpeechPart?
  }

  /** Calls are recorded as calls; otherwise the text and the reasoning, kept apart. */
  function RecordOf(content: seq<OutputPart>): Recorded {
    if CallsIn(content) != [] then Calls(CallsIn(content)) else Reply(TextOf(content), ReasoningOf(content))
  }

  lemma {:induction false} OnePieceMore(content: seq<OutputPart>, last: OutputPart)
    ensures PiecesOf(content + [last]) == PiecesOf(content) + (if last.Piece? then [last.part] else [])
    ensures CallsIn(content + [last]) == CallsIn(content) + (if last.Called? then [last.call] else [])
  {
    assert (content + [last])[..|content|] == content;
  }

  lemma {:induction false} OnlyPieces(parts: seq<Part>)
    ensures PiecesOf(AsPieces(parts)) == parts && CallsIn(AsPieces(parts)) == []
    decreases |parts|
  {
    if parts != [] {
      var most, last := parts[..|parts| - 1], parts[|parts| - 1];
      OnlyPieces(most);
      OnePieceMore(AsPieces(most), Piece(last));
      assert AsPieces(parts) == AsPieces(most) + [Piece(last)];
    }
  }

  lemma {:induction false} ThenCalls(content: seq<OutputPart>, calls: seq<ToolCall>)
    ensures PiecesOf(content + AsCalls(calls)) == PiecesOf(content)
    ensures CallsIn(content + AsCalls(calls)) == CallsIn(content) + calls
    decreases |calls|
  {
    hide PiecesOf, CallsIn;
    if calls == [] {
      assert content + AsCalls(calls) == content;
      assert CallsIn(content) + [] == CallsIn(content);
    } else {
      var most, last := calls[..|calls| - 1], calls[|calls| - 1];
      ThenCalls(content, most);
      OnePieceMore(content + AsCalls(most), Called(last));
      assert content + AsCalls(calls) == (content + AsCalls(most)) + [Called(last)];
      assert (CallsIn(content) + most) + [last] == CallsIn(content) + calls;
      assert PiecesOf(content) + [] == PiecesOf(content);
    }
  }

  lemma {:induction false} EmptyTextPart()
    ensures var content := [Piece(TextPart(""))];
            CallsIn(content) == [] && TextOf(content) == AssemblyStep.AllWords([], Text) == ""
  {
    OnePieceMore([], Piece(TextPart("")));
    var one := [TextPart("")];
    assert one[..0] == [];
    assert [] + one == one && [] + [Piece(TextPart(""))] == [Piece(TextPart(""))];
  }

  predicate SpeechIn(parts: seq<Part>) {
    exists i :: 0 <= i < |parts| && parts[i].SpeechPart?
  }

  predicate ReasoningIn(parts: seq<Part>) {
    exists i :: 0 <= i < |parts| && parts[i].ReasoningPart?
  }

  lemma {:induction false} PiecesHave(content: seq<OutputPart>, parts: seq<Part>, calls: seq<ToolCall>)
    requires content == AsPieces(parts) + AsCalls(calls)
    ensures HasSpeech(content) <==> SpeechIn(parts)
    ensures HasReasoningPart(content) <==> ReasoningIn(parts)
  {
    forall i | 0 <= i < |content| && content[i].Piece?
      ensures i < |parts| && content[i].part == parts[i]
    {}
    forall i | 0 <= i < |parts|
      ensures content[i] == Piece(parts[i])
    {}
  }

  /** What is recorded of an assembled message: its calls under the ids the response
      carries, or else exactly the visible text, and the reasoning exactly when the model
      produced any. */
  lemma {:induction false} RecordOfAssembled(parts: seq<Part>, calls: seq<ToolCall>)
    ensures CallsIn(ContentOf(parts, calls)) == calls
    ensures TextOf(ContentOf(parts, calls)) == AssemblyStep.AllWords(parts, Text)
    ensures ReasoningOf(ContentOf(parts, calls))
            == if ReasoningIn(parts) then Some(AssemblyStep.AllWords(parts, Reasoning)) else None
    ensures HasSpeech(ContentOf(parts, calls)) <==> SpeechIn(parts)
  {
    hide PiecesOf, CallsIn, AssemblyStep.AllWords;
    if parts == [] && calls == [] {
      EmptyTextPart();
    } else {
      OnlyPieces(parts);
      ThenCalls(AsPieces(parts), calls);
      PiecesHave(ContentOf(parts, calls), parts, calls);
      assert [] + calls == calls;
    }
  }

  /** A cancelled turn that produced nothing has nothing to record. */
  predicate WorthRecording(finish: Finish, content: seq<OutputPart>) {
    || finish != Stopped
    || TextOf(content) != "" || ReasoningOf(content).Some? || CallsIn(content) != [] || HasSpeech(content)
  }

  datatype Response = Response(content: seq<OutputPart>, reason: FinishReason, stats: Option<Stats>, messageId: Option<nat>)

  // ── The core ──────────────────────────────────────────────────────────────

  /** The token events the assembler has absorbed, and those the backend will still
      produce. */
  datatype Core = Core(message: nat, maxTokens: Option<nat>, absorbed: seq<TokenEvent>, coming: seq<TokenEvent>,
                       ending: Ending, queue: seq<Event>, done: bool, settled: bool, failed: Option<Error>,
                       response: Option<Response>, closeAfter: bool)

  function NewCore(message: nat, maxTokens: Option<nat>, tokens: seq<TokenEvent>, ending: Ending, closeAfter: bool): Core {
    Core(message, maxTokens, [], tokens, ending, [], false, false, None, None, closeAfter)
  }

  /** A stream that ended before it began: cancelled ahead of dispatch. */
  function CancelledCore(message: nat, ending: Ending): Core {
    Core(message, None, [], [], ending, [Finished(Cancelled)], true, true, None,
         Some(Response([], Cancelled, None, None)), false)
  }

  datatype Pulled = Pulled(core: Core, item: Option<Item>)

  /** The assembler absorbs the next token event. */
  function Absorb(c: Core): Core
    requires c.coming != []
  {
    c.(absorbed := c.absorbed + [c.coming[0]], coming := c.coming[1..],
       queue := EventsOf(c.message, c.absorbed, c.coming[0]))
  }

  function PullOf(c: Core): Pulled
    decreases |c.coming|
  {
    if c.queue != [] then Pulled(c.(queue := c.queue[1..]), Some(Ok(c.queue[0])))
    else if c.done then Pulled(c, None)
    else if c.coming != [] then PullOf(Absorb(c))
    else match c.ending
      case Broken(e) => Pulled(c.(done := true, failed := Some(e)), Some(Err(e)))
      case Completed(_, _) => Pulled(c.(done := true), None)
  }

  predicate NeedsCompletion(c: Core) {
    c.done && !c.settled && c.failed.None?
  }

  /** Everything the backend produces in the turn. */
  function Tokens(c: Core): seq<TokenEvent> {
    c.absorbed + c.coming
  }

  /** The events completion queues. */
  function Closing(c: Core): seq<Event>
    requires c.ending.Completed?
  {
    FinishEvents(c.message, c.maxTokens, Tokens(c), c.ending.finish, c.ending.pending)
  }

  function MessageOf(c: Core): seq<OutputPart>
    requires c.ending.Completed?
  {
    ContentOf(PartsAfter(Tokens(c), c.ending.pending), CallsOf(c.message, Tokens(c)))
  }

  /** The transcript after a completed turn. */
  function Settled(c: Core, s: Transcript): Transcript
    requires c.ending.Completed?
  {
    var finish, content := c.ending.finish, MessageOf(c);
    Transcript(if WorthRecording(finish, content) then s.messages + [RecordOf(content)] else s.messages,
               s.isOpen && finish != Stopped && !c.closeAfter, s.shed + ShedOf(Tokens(c)))
  }

  function ResponseOf(c: Core, s: Transcript): Response
    requires c.ending.Completed?
  {
    Response(MessageOf(c), ReasonAfter(c.message, c.maxTokens, Tokens(c), c.ending.finish), LastStats(Tokens(c)),
             if WorthRecording(c.ending.finish, MessageOf(c)) then Some(|s.messages|) else None)
  }

  function CompleteOf(c: Core, s: Transcript): Core
    requires c.ending.Completed?
  {
    c.(settled := true, queue := c.queue + Closing(c), response := Some(ResponseOf(c, s)))
  }

  datatype Stepped = Stepped(core: Core, transcript: Transcript, item: Option<Item>)

  /** Completion is only ever due on a stream that did not break. */
  predicate Coherent(c: Core) {
    && (c.done && !c.settled && c.failed.None? ==> c.ending.Completed? && c.response.None? && c.coming == [])
    && (!c.done ==> !c.settled && c.failed.None? && c.response.None?)
    && (c.failed.Some? ==> c.done && c.queue == [])
  }

  lemma {:induction false} PullKeepsCoherent(c: Core)
    requires Coherent(c)
    ensures Coherent(PullOf(c).core)
    ensures PullOf(c).item.None? ==> PullOf(c).core.done && PullOf(c).core.queue == []
    decreases |c.coming|
  {
    if c.queue == [] && !c.done && c.coming != [] {
      PullKeepsCoherent(Absorb(c));
    }
  }

  /** One call of the blocking iterator. */
  function NextOf(c: Core, s: Transcript): (n: Stepped)
    requires Coherent(c)
    ensures Coherent(n.core)
  {
    PullKeepsCoherent(c);
    var p := PullOf(c);
    if p.item.Some? then Stepped(p.core, s, p.item)
    else if NeedsCompletion(p.core) then
      var closed := CompleteOf(p.core, s);
      PullKeepsCoherent(closed);
      var q := PullOf(closed);
      Stepped(q.core, Settled(p.core, s), q.item)
    else Stepped(p.core, s, None)
  }

  // ── What is still to come ─────────────────────────────────────────────────

  function Oks(events: seq<Event>): seq<Item> {
    seq(|events|, i requires 0 <= i < |events| => Ok(events[i]))
  }

  /** What is reported of the token events still to come. */
  function EventsFrom(message: nat, absorbed: seq<TokenEvent>, coming: seq<TokenEvent>): seq<Event>
    decreases |coming|
  {
    if coming == [] then []
    else EventsOf(message, absorbed, coming[0]) + EventsFrom(message, absorbed + [coming[0]], coming[1..])
  }

  /** Everything the stream will still pull out of the backend. */
  function ToPull(c: Core): seq<Item> {
    Oks(c.queue) + (if c.done then [] else Oks(EventsFrom(c.message, c.absorbed, c.coming)) + (if c.ending.Broken? then [Err(c.ending.error)] else []))
  }

  /** The closing events, until completion has queued them. */
  function ToClose(c: Core): seq<Item> {
    if c.ending.Completed? && !c.settled && c.failed.None? then Oks(Closing(c)) else []
  }

  function Remaining(c: Core): seq<Item> {
    ToPull(c) + ToClose(c)
  }

  /** What will have become of the turn in the end. */
  datatype Outcome = Outcome(transcript: Transcript, response: Option<Response>, failed: Option<Error>)

  function OutcomeOf(c: Core, s: Transcript): Outcome {
    if c.settled || c.failed.Some? then Outcome(s, c.response, c.failed)
    else match c.ending
      case Broken(e) => Outcome(s, c.response, Some(e))
      case Completed(_, _) => Outcome(Settled(c, s), Some(ResponseOf(c, s)), None)
  }

  lemma {:induction false} OksOfTwo(a: seq<Event>, b: seq<Event>)
    ensures Oks(a + b) == Oks(a) + Oks(b)
  {}

  /** The outcome depends on the tokens of the turn, not on how many are absorbed. */
  lemma {:induction false} SameTokensSameEnd(c: Core, absorbed: seq<TokenEvent>, coming: seq<TokenEvent>, queue: seq<Event>, s: Transcript)
    requires absorbed + coming == Tokens(c) && !c.done
    ensures var d := c.(absorbed := absorbed, coming := coming, queue := queue);
            ToClose(d) == ToClose(c) && OutcomeOf(d, s) == OutcomeOf(c, s)
  {
    hide FinishEvents, ContentOf, PartsAfter, CallsOf, RecordOf, WorthRecording, LastStats, ShedOf, ReasonAfter, Oks;
  }

  /** Absorbing an event changes nothing about what is still to be pulled, nor about what
      the turn will come to. */
  lemma {:induction false} AbsorbKeepsRest(c: Core, s: Transcript)
    requires c.queue == [] && !c.done && c.coming != []
    ensures ToPull(Absorb(c)) == ToPull(c) && ToClose(Absorb(c)) == ToClose(c)
    ensures OutcomeOf(Absorb(c), s) == OutcomeOf(c, s)
  {
    hide EventsOf, ToClose, OutcomeOf;
    var first, rest := EventsOf(c.message, c.absorbed, c.coming[0]), EventsFrom(c.message, c.absorbed + [c.coming[0]], c.coming[1..]);
    OksOfTwo(first, rest);
    assert Oks(c.queue) == [];
    assert (c.absorbed + [c.coming[0]]) + c.coming[1..] == Tokens(c);
    SameTokensSameEnd(c, c.absorbed + [c.coming[0]], c.coming[1..], first, s);
    AssociateItems(Oks(first), Oks(rest), if c.ending.Broken? then [Err(c.ending.error)] else []);
  }

  lemma {:induction false} AssociateItems(a: seq<Item>, b: seq<Item>, c: seq<Item>)
    ensures a + (b + c) == [] + ((a + b) + c)
  {}

  lemma {:induction false} PopTakesFirst(c: Core, s: Transcript)
    requires c.queue != []
    ensures ToPull(c) != [] && ToPull(c)[0] == Ok(c.queue[0])
    ensures ToPull(c.(queue := c.queue[1..])) == ToPull(c)[1..]
    ensures ToClose(c.(queue := c.queue[1..])) == ToClose(c)
    ensures OutcomeOf(c.(queue := c.queue[1..]), s) == OutcomeOf(c, s)
  {
    hide FinishEvents, ContentOf, PartsAfter, CallsOf, RecordOf, WorthRecording, LastStats, ShedOf, ReasonAfter, EventsFrom;
    assert Oks(c.queue)[1..] == Oks(c.queue[1..]);
    assert Oks(c.queue)[0] == Ok(c.queue[0]);
  }

  /** The end of the backend's stream, with nothing queued. */
  lemma {:induction false} EndTakesFirst(c: Core, s: Transcript)
    requires Coherent(c) && c.queue == [] && (c.done || c.coming == [])
    ensures PullOf(c).item == (if ToPull(c) == [] then None else Some(ToPull(c)[0]))
    ensures ToPull(PullOf(c).core) == (if ToPull(c) == [] then [] else ToPull(c)[1..])
    ensures ToClose(PullOf(c).core) == ToClose(c)
    ensures OutcomeOf(PullOf(c).core, s) == OutcomeOf(c, s)
  {
    hide FinishEvents, ContentOf, PartsAfter, CallsOf, RecordOf, WorthRecording, LastStats, ShedOf, ReasonAfter;
    assert Oks(c.queue) == [];
    if !c.done {
      assert Oks(EventsFrom(c.message, c.absorbed, c.coming)) == [];
    }
  }

  /** A pull hands out exactly the first thing still to be pulled, and changes nothing
      about what comes after or what the turn will come to. */
  lemma {:induction false} PullTakesFirst(c: Core, s: Transcript)
    requires Coherent(c)
    ensures PullOf(c).item == (if ToPull(c) == [] then None else Some(ToPull(c)[0]))
    ensures ToPull(PullOf(c).core) == (if ToPull(c) == [] then [] else ToPull(c)[1..])
    ensures ToClose(PullOf(c).core) == ToClose(c)
    ensures OutcomeOf(PullOf(c).core, s) == OutcomeOf(c, s)
    ensures PullOf(c).core.settled == c.settled
    decreases |c.coming|
  {
    if c.queue != [] {
      hide ToPull, ToClose, OutcomeOf;
      PopTakesFirst(c, s);
    } else if !c.done && c.coming != [] {
      AbsorbKeepsRest(c, s);
      hide ToPull, ToClose, OutcomeOf;
      PullTakesFirst(Absorb(c), s);
    } else {
      hide ToPull, ToClose, OutcomeOf;
      EndTakesFirst(c, s);
    }
  }

  /** Completion moves the closing events into the queue and settles the outcome the
      turn was heading for. */
  lemma {:induction false} CompleteKeepsRemaining(c: Core, s: Transcript)
    requires Coherent(c) && NeedsCompletion(c)
    ensures Coherent(CompleteOf(c, s))
    ensures Remaining(CompleteOf(c, s)) == Remaining(c) && ToClose(CompleteOf(c, s)) == []
    ensures OutcomeOf(CompleteOf(c, s), Settled(c, s)) == OutcomeOf(c, s)
  {
    hide FinishEvents, ContentOf, PartsAfter, CallsOf, RecordOf, WorthRecording, LastStats, ShedOf, ReasonAfter;
    OksOfTwo(c.queue, Closing(c));
  }

  /** A stream with nothing queued and nothing to complete has come to its outcome. */
  lemma {:induction false} NothingLeft(c: Core, s: Transcript)
    requires Coherent(c) && c.done && c.queue == [] && !NeedsCompletion(c)
    ensures Remaining(c) == [] && OutcomeOf(c, s) == Outcome(s, c.response, c.failed)
  {}

  /** The blocking iterator hands out what remains, one by one, and heads for one
      outcome. When it has nothing left, the outcome has been reached. */
  lemma {:induction false} NextTakesFirst(c: Core, s: Transcript)
    requires Coherent(c)
    ensures var n := NextOf(c, s);
            && n.item == (if Remaining(c) == [] then None else Some(Remaining(c)[0]))
            && Remaining(n.core) == (if Remaining(c) == [] then [] else Remaining(c)[1..])
            && OutcomeOf(n.core, n.transcript) == OutcomeOf(c, s)
            && (n.item.None? ==> OutcomeOf(c, s) == Outcome(n.transcript, n.core.response, n.core.failed))
  {
    hide PullOf, ToPull, ToClose, OutcomeOf, CompleteOf, Settled, ResponseOf;
    PullKeepsCoherent(c);
    PullTakesFirst(c, s);
    var p := PullOf(c);
    if p.item.None? && NeedsCompletion(p.core) {
      CompletionTakesFirst(p.core, s);
    } else if p.item.None? {
      NothingLeft(p.core, s);
    }
  }

  lemma {:induction false} CompletionTakesFirst(c: Core, s: Transcript)
    requires Coherent(c) && NeedsCompletion(c)
    ensures var closed, t := CompleteOf(c, s), Settled(c, s);
            var q := PullOf(closed);
            && q.item == (if Remaining(c) == [] then None else Some(Remaining(c)[0]))
            && Remaining(q.core) == (if Remaining(c) == [] then [] else Remaining(c)[1..])
            && OutcomeOf(q.core, t) == OutcomeOf(c, s)
            && (q.item.None? ==> OutcomeOf(c, s) == Outcome(t, q.core.response, q.core.failed))
  {
    hide FinishEvents, ContentOf, PartsAfter, CallsOf, RecordOf, WorthRecording, LastStats, ShedOf, ReasonAfter;
    var closed, t := CompleteOf(c, s), Settled(c, s);
    CompleteKeepsRemaining(c, s);
    assert closed.settled;
    hide PullOf, ToPull, ToClose, OutcomeOf, CompleteOf, Settled, ResponseOf;
    PullKeepsCoherent(closed);
    PullTakesFirst(closed, t);
    if PullOf(closed).item.None? {
      NothingLeft(PullOf(closed).core, t);
    }
  }

  /** Once the iterator has returned nothing it returns nothing forever, and changes
      nothing. */
  lemma {:induction false} NothingForever(c: Core, s: Transcript)
    requires Coherent(c) && NextOf(c, s).item.None?
    ensures var n := NextOf(c, s); NextOf(n.core, n.transcript) == n
  {
    PullKeepsCoherent(c);
    var p := PullOf(c);
    if NeedsCompletion(p.core) {
      var closed := CompleteOf(p.core, s);
      CompleteKeepsRemaining(p.core, s);
      PullKeepsCoherent(closed);
    }
  }
}
