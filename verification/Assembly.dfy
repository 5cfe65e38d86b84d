/** The assembler of src/api/event.rs: a stream of token events becomes semantic events
    and, at its end, a message. Every method is proved against the batch computation of
    BatchParts over all that was absorbed so far. */
module Assembly {
  import opened Wrappers
  import opened BatchParts
  import opened AssemblyStep
  import opened ReplyScanner
  import CivilDate

  datatype ToolCall = ToolCall(id: string, name: string, arguments: string)

  datatype Stats = Stats(promptTokens: nat, completionTokens: nat)

  datatype Finish = Eos | Stopped | OtherFinish(name: string)

  datatype FinishReason = Stop | Length | ToolCalls | Cancelled | OtherReason(name: string)

  /** What a backend reports, behind the marker scanner: a token as the slices it is cut
      into, speech with the slices the scanner was still holding. */
  datatype TokenEvent =
    | Token(slices: seq<Slice>)
    | SpeechChunk(pending: seq<Slice>, rate: nat, samples: seq<int>)
    | Call(id: Option<string>, name: string, arguments: string)
    | Reported(stats: Stats)
    | ContextTruncated(dropped: nat)
    | ContextCompacted(compacted: nat)
    | Unhandled

  /** What a backend reports as it reports it: a token of text, a chunk of speech, or
      something the scanner has no part in. */
  datatype BackendEvent = Written(text: string) | Spoken(rate: nat, samples: seq<int>) | Noted(event: Unscanned)

  type Unscanned = e: TokenEvent | !e.Token? && !e.SpeechChunk? witness Unhandled

  datatype Event =
    | Delta(part: Part)
    | ToolCallStart(id: string, name: string)
    | ToolCallArgumentsDelta(id: string, delta: string)
    | ToolCallEnd(call: ToolCall)
    | Usage(stats: Stats)
    | Finished(reason: FinishReason)

  datatype OutputPart = Piece(part: Part) | Called(call: ToolCall)

  function Deltas(events: seq<Event>): seq<Part> {
    if events == [] then []
    else Deltas(events[..|events| - 1]) + (if events[|events| - 1].Delta? then [events[|events| - 1].part] else [])
  }

  lemma {:induction false} DeltasOfTwo(a: seq<Event>, b: seq<Event>)
    ensures Deltas(a + b) == Deltas(a) + Deltas(b)
    decreases |b|
  {
    if b == [] {
      assert a + b == a;
    } else {
      var most, last := b[..|b| - 1], b[|b| - 1];
      DeltasOfTwo(a, most);
      assert (a + b)[..|a + b| - 1] == a + most && (a + b)[|a + b| - 1] == last;
      assert Deltas(a + b) == Deltas(a + most) + (if last.Delta? then [last.part] else []);
    }
  }

  lemma {:induction false} DeltaOfOne(e: Event)
    ensures Deltas([e]) == if e.Delta? then [e.part] else []
  {
    assert [e][..0] == [];
  }

  /** What an event contributes to the parts of the message. */
  function ItemsOfOne(event: TokenEvent): seq<Item> {
    match event
    case Token(slices) => AsItems(slices)
    case SpeechChunk(pending, rate, samples) => AsItems(pending) + [Speech(rate, samples)]
    case _ => []
  }

  function ItemsOf(events: seq<TokenEvent>): seq<Item> {
    if events == [] then [] else ItemsOf(events[..|events| - 1]) + ItemsOfOne(events[|events| - 1])
  }

  // ── Through the scanner ───────────────────────────────────────────────────

  /** Where the scanner stands between two events. */
  datatype Standing = Standing(channel: Channel, pending: string)

  const AT_START := Standing(Text, "")

  ghost function TokenOf(markers: Markers, at: Standing, event: BackendEvent): TokenEvent {
    match event
    case Written(text) => Token(SplitOf(markers, at.channel, "", at.pending + text).slices)
    case Spoken(rate, samples) => SpeechChunk(Closed(at.channel, at.pending), rate, samples)
    case Noted(e) => e
  }

  ghost function StandingAfter(markers: Markers, at: Standing, event: BackendEvent): Standing {
    match event
    case Written(text) =>
      var s := SplitOf(markers, at.channel, "", at.pending + text);
      Standing(s.channel, s.pending)
    case Spoken(_, _) => at.(pending := "")
    case Noted(_) => at
  }

  ghost function TokensOf(markers: Markers, at: Standing, events: seq<BackendEvent>): seq<TokenEvent>
    decreases |events|
  {
    if events == [] then []
    else [TokenOf(markers, at, events[0])] + TokensOf(markers, StandingAfter(markers, at, events[0]), events[1..])
  }

  /** What the scanner still holds behind the last of the events. */
  ghost function PendingAfter(markers: Markers, at: Standing, events: seq<BackendEvent>): seq<Slice>
    decreases |events|
  {
    if events == [] then Closed(at.channel, at.pending)
    else PendingAfter(markers, StandingAfter(markers, at, events[0]), events[1..])
  }

  // ── Call ids ──────────────────────────────────────────────────────────────

  /** The id minted for the `n`-th unnamed call of a message. */
  function Minted(message: nat, n: nat): string {
    "call_" + (CivilDate.Decimal(message) + "_" + CivilDate.Decimal(n))
  }

  /** Two calls of a session never get the same minted id. */
  lemma {:induction false} MintedIdsDiffer(m: nat, i: nat, n: nat, j: nat)
    requires Minted(m, i) == Minted(n, j)
    ensures m == n && i == j
  {
    var a, b := CivilDate.Decimal(m), CivilDate.Decimal(n);
    var c, d := CivilDate.Decimal(i), CivilDate.Decimal(j);
    CivilDate.DecimalValue(m);
    CivilDate.DecimalValue(n);
    CivilDate.DecimalValue(i);
    CivilDate.DecimalValue(j);
    CutPrefix("call_", a + "_" + c, b + "_" + d);
    CutAtBar(a, c, b, d);
  }

  lemma {:induction false} CutPrefix(p: string, s: string, t: string)
    requires p + s == p + t
    ensures s == t
  {
    assert (p + s)[|p|..] == s && (p + t)[|p|..] == t;
  }

  lemma {:induction false} CutAtBar(a: string, c: string, b: string, d: string)
    requires a + "_" + c == b + "_" + d && '_' !in a && '_' !in b
    ensures a == b && c == d
  {
    var s := a + "_" + c;
    assert s[|a|] == '_' && s[|b|] == '_';
    assert forall k :: 0 <= k < |a| ==> s[k] == a[k];
    assert forall k :: 0 <= k < |b| ==> s[k] == b[k];
    assert s[..|a|] == a && s[..|b|] == b;
    assert s[|a| + 1..] == c && s[|b| + 1..] == d;
  }

  predicate IsNamed(id: Option<string>) {
    id.Some? && id.value != ""
  }

  /** The call as the message keeps it: under its own id, or the next minted one. */
  function CallFrom(message: nat, next: nat, id: Option<string>, name: string, arguments: string): ToolCall {
    ToolCall(if IsNamed(id) then id.value else Minted(message, next), name, arguments)
  }

  function CallEvents(call: ToolCall): seq<Event> {
    [ToolCallStart(call.id, call.name), ToolCallArgumentsDelta(call.id, call.arguments), ToolCallEnd(call)]
  }

  function CallsOfOne(message: nat, next: nat, event: TokenEvent): seq<ToolCall> {
    if event.Call? then [CallFrom(message, next, event.id, event.name, event.arguments)] else []
  }

  function Unnamed(event: TokenEvent): nat {
    if event.Call? && !IsNamed(event.id) then 1 else 0
  }

  function UnnamedIn(events: seq<TokenEvent>): nat {
    if events == [] then 0 else UnnamedIn(events[..|events| - 1]) + Unnamed(events[|events| - 1])
  }

  /** All calls of a turn, the unnamed ones numbered as they come. */
  function CallsOf(message: nat, events: seq<TokenEvent>): seq<ToolCall> {
    if events == [] then []
    else
      var most := events[..|events| - 1];
      CallsOf(message, most) + CallsOfOne(message, UnnamedIn(most), events[|events| - 1])
  }

  function LastStats(events: seq<TokenEvent>): Option<Stats> {
    if events == [] then None
    else if events[|events| - 1].Reported? then Some(events[|events| - 1].stats)
    else LastStats(events[..|events| - 1])
  }

  /** The messages the backend dropped or compacted to fit the context. */
  function ShedOf(events: seq<TokenEvent>): nat {
    if events == [] then 0 else ShedOf(events[..|events| - 1]) + ShedOfOne(events[|events| - 1])
  }

  function ShedOfOne(event: TokenEvent): nat {
    match event
    case ContextTruncated(dropped) => dropped
    case ContextCompacted(compacted) => compacted
    case _ => 0
  }

  lemma {:induction false} OneMoreToken(message: nat, tokens: seq<TokenEvent>, token: TokenEvent)
    ensures var all := tokens + [token];
            && ItemsOf(all) == ItemsOf(tokens) + ItemsOfOne(token)
            && CallsOf(message, all) == CallsOf(message, tokens) + CallsOfOne(message, UnnamedIn(tokens), token)
            && UnnamedIn(all) == UnnamedIn(tokens) + Unnamed(token)
            && LastStats(all) == (if token.Reported? then Some(token.stats) else LastStats(tokens))
            && ShedOf(all) == ShedOf(tokens) + ShedOfOne(token)
  {
    assert (tokens + [token])[..|tokens|] == tokens;
  }

  /** How a turn ended, as far as the caller is told: a stop wins over calls, calls
      over everything else, and a spent budget is only known from reported statistics. */
  ghost predicate Explains(reason: FinishReason, finish: Finish, calls: seq<ToolCall>, stats: Option<Stats>, maxTokens: Option<nat>) {
    var atBudget := stats.Some? && maxTokens.Some? && stats.value.completionTokens >= maxTokens.value;
    && (reason == Cancelled <==> finish == Stopped)
    && (reason == ToolCalls <==> finish != Stopped && calls != [])
    && (reason == Length <==> finish == Eos && calls == [] && atBudget)
    && (reason == Stop <==> finish == Eos && calls == [] && !atBudget)
    && (reason.OtherReason? ==> finish == OtherFinish(reason.name))
  }

  function ReasonFor(finish: Finish, calls: seq<ToolCall>, stats: Option<Stats>, maxTokens: Option<nat>): (reason: FinishReason)
    ensures Explains(reason, finish, calls, stats, maxTokens)
  {
    if calls != [] && finish != Stopped then ToolCalls
    else match finish
      case Eos =>
        if stats.Some? && maxTokens.Some? && stats.value.completionTokens >= maxTokens.value then Length else Stop
      case Stopped => Cancelled
      case OtherFinish(name) => OtherReason(name)
  }

  /** Usage, when the backend reported it, and then the end. */
  function ClosingEvents(stats: Option<Stats>, reason: FinishReason): seq<Event> {
    (if stats.Some? then [Usage(stats.value)] else []) + [Finished(reason)]
  }

  /** Nothing before the closing events is one. */
  ghost predicate Running(events: seq<Event>) {
    forall i :: 0 <= i < |events| ==> !events[i].Finished? && !events[i].Usage?
  }

  ghost predicate Closes(events: seq<Event>, stats: Option<Stats>, reason: FinishReason) {
    exists before: seq<Event> :: Running(before) && events == before + ClosingEvents(stats, reason)
  }

  lemma {:induction false} RunningOn(a: seq<Event>, b: seq<Event>)
    requires Running(a) && Running(b)
    ensures Running(a + b)
  {}

  lemma {:induction false} ClosesBehind(before: seq<Event>, events: seq<Event>, stats: Option<Stats>, reason: FinishReason)
    requires Running(before) && Closes(events, stats, reason)
    ensures Closes(before + events, stats, reason)
  {
    var most: seq<Event> :| Running(most) && events == most + ClosingEvents(stats, reason);
    assert Running(before + most);
    assert before + events == (before + most) + ClosingEvents(stats, reason);
  }

  /** A message: the parts, then the calls; with neither, one empty text part. */
  function ContentOf(parts: seq<Part>, calls: seq<ToolCall>): seq<OutputPart> {
    if parts == [] && calls == [] then [Piece(TextPart(""))] else AsPieces(parts) + AsCalls(calls)
  }

  function AsPieces(parts: seq<Part>): seq<OutputPart> {
    seq(|parts|, i requires 0 <= i < |parts| => Piece(parts[i]))
  }

  function AsCalls(calls: seq<ToolCall>): seq<OutputPart> {
    seq(|calls|, i requires 0 <= i < |calls| => Called(calls[i]))
  }

  // ── What is reported ──────────────────────────────────────────────────────

  /** What one slice adds, behind the items absorbed before it. */
  function AbsorbedBehind(items: seq<Item>, slice: Slice): Absorbed {
    var runs := Runs(items);
    Absorb(OpenOf(runs), HeldOf(runs), HasReasoning(runs) || slice.channel == Reasoning, slice.channel, slice.text)
  }

  /** A slice is reported by one delta, unless it shows nothing yet. */
  function SliceEvents(items: seq<Item>, slice: Slice): seq<Event> {
    var a := AbsorbedBehind(items, slice);
    if a.grown == "" then [] else [Delta(PartOf(slice.channel, a.grown))]
  }

  function SlicesEvents(items: seq<Item>, slices: seq<Slice>): seq<Event> {
    if slices == [] then []
    else
      var most := slices[..|slices| - 1];
      SlicesEvents(items, most) + SliceEvents(items + AsItems(most), slices[|slices| - 1])
  }

  /** What is reported of one token event when those of `history` came before it. */
  function EventsOf(message: nat, history: seq<TokenEvent>, event: TokenEvent): seq<Event> {
    match event
    case Token(slices) => SlicesEvents(ItemsOf(history), slices)
    case SpeechChunk(pending, rate, samples) =>
      SlicesEvents(ItemsOf(history), pending) + [Delta(SpeechPart(rate, samples))]
    case Call(id, name, arguments) => CallEvents(CallFrom(message, UnnamedIn(history), id, name, arguments))
    case _ => []
  }

  function AllEvents(message: nat, history: seq<TokenEvent>): seq<Event> {
    if history == [] then []
    else
      var most := history[..|history| - 1];
      AllEvents(message, most) + EventsOf(message, most, history[|history| - 1])
  }

  function ReasonAfter(message: nat, maxTokens: Option<nat>, history: seq<TokenEvent>, finish: Finish): FinishReason {
    ReasonFor(finish, CallsOf(message, history), LastStats(history), maxTokens)
  }

  /** What is reported at the end: what the scanner still held, and the closing events. */
  function FinishEvents(message: nat, maxTokens: Option<nat>, history: seq<TokenEvent>, finish: Finish, pending: seq<Slice>): seq<Event> {
    SlicesEvents(ItemsOf(history), pending)
    + ClosingEvents(LastStats(history), ReasonAfter(message, maxTokens, history, finish))
  }

  /** The parts of the message of a turn. */
  function PartsAfter(history: seq<TokenEvent>, pending: seq<Slice>): seq<Part> {
    PartsOf(Runs(ItemsOf(history) + AsItems(pending)))
  }

  lemma {:induction false} SlicesAreRunning(items: seq<Item>, slices: seq<Slice>)
    ensures Running(SlicesEvents(items, slices))
    decreases |slices|
  {
    if slices != [] {
      SlicesAreRunning(items, slices[..|slices| - 1]);
    }
  }

  /** Before the end nothing closes a turn. */
  lemma {:induction false} EventsAreRunning(message: nat, history: seq<TokenEvent>, event: TokenEvent)
    ensures Running(EventsOf(message, history, event))
  {
    match event {
      case Token(slices) => SlicesAreRunning(ItemsOf(history), slices);
      case SpeechChunk(pending, _, _) => SlicesAreRunning(ItemsOf(history), pending);
      case _ =>
    }
  }

  /** And the end closes it: usage if it was reported, then `Finished`, once and last. */
  lemma {:induction false} FinishCloses(message: nat, maxTokens: Option<nat>, history: seq<TokenEvent>, finish: Finish, pending: seq<Slice>)
    ensures Closes(FinishEvents(message, maxTokens, history, finish, pending), LastStats(history),
                   ReasonAfter(message, maxTokens, history, finish))
  {
    SlicesAreRunning(ItemsOf(history), pending);
  }

  // ── Deltas spell the parts ────────────────────────────────────────────────

  /** The deltas reported so far come in one group for each part there is, and spell it. */
  ghost predicate DeltasSpell(deltas: seq<Part>, items: seq<Item>) {
    exists groups: seq<seq<Part>> :: Grouped(groups, PartsOf(Runs(items))) && Flatten(groups) == deltas
  }

  lemma {:induction false} SliceSpells(deltas: seq<Part>, items: seq<Item>, slice: Slice)
    requires DeltasSpell(deltas, items)
    ensures DeltasSpell(deltas + Deltas(SliceEvents(items, slice)), items + [Emission(slice.channel, slice.text)])
  {
    hide PartsOf, Runs, Flatten, Grouped, Absorb;
    var groups: seq<seq<Part>> :| Grouped(groups, PartsOf(Runs(items))) && Flatten(groups) == deltas;
    var a := AbsorbedBehind(items, slice);
    RunsOneMore(items, Emission(slice.channel, slice.text));
    AbsorbAgrees(Runs(items), slice.channel, slice.text);
    if a.grown == "" {
      NoDeltas([]);
      assert deltas + [] == deltas;
    } else {
      var delta := PartOf(slice.channel, a.grown);
      GrowKeepsGroups(groups, PartsOf(Runs(items)), delta, a.begins);
      DeltaOfOne(Delta(delta));
    }
  }

  lemma {:induction false} SlicesSpell(deltas: seq<Part>, items: seq<Item>, slices: seq<Slice>)
    requires DeltasSpell(deltas, items)
    ensures DeltasSpell(deltas + Deltas(SlicesEvents(items, slices)), items + AsItems(slices))
    decreases |slices|
  {
    hide DeltasSpell, Deltas, SliceEvents;
    if slices == [] {
      NoDeltas([]);
      assert deltas + [] == deltas && items + AsItems(slices) == items;
    } else {
      var most, last := slices[..|slices| - 1], slices[|slices| - 1];
      SlicesSpell(deltas, items, most);
      SliceSpells(deltas + Deltas(SlicesEvents(items, most)), items + AsItems(most), last);
      DeltasOfTwo(SlicesEvents(items, most), SliceEvents(items + AsItems(most), last));
      assert items + AsItems(slices) == (items + AsItems(most)) + [Emission(last.channel, last.text)];
      Reassociate(deltas, Deltas(SlicesEvents(items, most)), Deltas(SliceEvents(items + AsItems(most), last)));
    }
  }

  lemma {:induction false} SpeechSpells(deltas: seq<Part>, items: seq<Item>, rate: nat, samples: seq<int>)
    requires DeltasSpell(deltas, items)
    ensures DeltasSpell(deltas + [SpeechPart(rate, samples)], items + [Speech(rate, samples)])
  {
    hide PartsOf, Runs, Flatten, Grouped;
    var groups: seq<seq<Part>> :| Grouped(groups, PartsOf(Runs(items))) && Flatten(groups) == deltas;
    var delta, parts := SpeechPart(rate, samples), PartsOf(Runs(items));
    RunsOneMore(items, Speech(rate, samples));
    SpeechAgrees(Runs(items), rate, samples);
    GrowKeepsGroups(groups, parts, delta, !SameSound(parts, delta));
  }

  lemma {:induction false} EventSpells(message: nat, deltas: seq<Part>, history: seq<TokenEvent>, event: TokenEvent)
    requires DeltasSpell(deltas, ItemsOf(history))
    ensures DeltasSpell(deltas + Deltas(EventsOf(message, history, event)), ItemsOf(history) + ItemsOfOne(event))
  {
    hide DeltasSpell, Deltas, SlicesEvents, ItemsOf;
    var items := ItemsOf(history);
    match event {
      case Token(slices) => SlicesSpell(deltas, items, slices);
      case SpeechChunk(pending, rate, samples) =>
        SlicesSpell(deltas, items, pending);
        var said, sound := SlicesEvents(items, pending), [Delta(SpeechPart(rate, samples))];
        SpeechSpells(deltas + Deltas(said), items + AsItems(pending), rate, samples);
        DeltaOfOne(sound[0]);
        DeltasOfTwo(said, sound);
        Reassociate(deltas, Deltas(said), [SpeechPart(rate, samples)]);
        Reassociate(items, AsItems(pending), [Speech(rate, samples)]);
      case _ =>
        NoDeltas(EventsOf(message, history, event));
        assert deltas + [] == deltas && items + [] == items;
    }
  }

  /** At every point of a turn the deltas reported spell the parts there are. */
  lemma {:induction false} HistorySpells(message: nat, history: seq<TokenEvent>)
    ensures DeltasSpell(Deltas(AllEvents(message, history)), ItemsOf(history))
    decreases |history|
  {
    if history == [] {
      NoDeltas([]);
      var none: seq<seq<Part>> := [];
      assert Grouped(none, PartsOf(Runs([]))) && Flatten(none) == [];
    } else {
      hide DeltasSpell, Deltas, EventsOf;
      var most, last := history[..|history| - 1], history[|history| - 1];
      HistorySpells(message, most);
      EventSpells(message, Deltas(AllEvents(message, most)), most, last);
      DeltasOfTwo(AllEvents(message, most), EventsOf(message, most, last));
    }
  }

  /** And at its end they spell the message. */
  lemma {:induction false} TurnSpells(message: nat, maxTokens: Option<nat>, history: seq<TokenEvent>, finish: Finish, pending: seq<Slice>)
    ensures DeltasSpell(Deltas(AllEvents(message, history) + FinishEvents(message, maxTokens, history, finish, pending)),
                    ItemsOf(history) + AsItems(pending))
  {
    hide DeltasSpell, Deltas, AllEvents, SlicesEvents, ItemsOf, ReasonAfter;
    var all, last := AllEvents(message, history), SlicesEvents(ItemsOf(history), pending);
    var closing := ClosingEvents(LastStats(history), ReasonAfter(message, maxTokens, history, finish));
    HistorySpells(message, history);
    SlicesSpell(Deltas(all), ItemsOf(history), pending);
    NoDeltas(closing);
    DeltasOfTwo(last, closing);
    DeltasOfTwo(all, last + closing);
    assert Deltas(last) + [] == Deltas(last);
  }

  // ── The assembler ─────────────────────────────────────────────────────────

  /** The state of the assembler is what the batch computation says about the items
      absorbed so far. */
  ghost predicate Tracks(items: seq<Item>, parts: seq<Part>, open: Option<Channel>, held: string, scaffolded: bool) {
    var runs := Runs(items);
    parts == PartsOf(runs) && open == OpenOf(runs) && held == HeldOf(runs) && (scaffolded <==> HasReasoning(runs))
  }

  lemma {:induction false} TracksSlice(items: seq<Item>, parts: seq<Part>, open: Option<Channel>, held: string, scaffolded: bool,
                                       slice: Slice)
    requires Tracks(items, parts, open, held, scaffolded)
    ensures var seen := scaffolded || slice.channel == Reasoning;
            var a := Absorb(open, held, seen, slice.channel, slice.text);
            var delta := PartOf(slice.channel, a.grown);
            && a == AbsorbedBehind(items, slice)
            && CanGrow(parts, delta, a.begins)
            && Tracks(items + [Emission(slice.channel, slice.text)],
                      if a.grown == "" then parts else Grow(parts, delta, a.begins),
                      if a.begins && a.grown == "" then None else Some(slice.channel), a.held, seen)
  {
    RunsOneMore(items, Emission(slice.channel, slice.text));
    ReasoningIsKnown(Runs(items), slice.channel, slice.text);
    AbsorbAgrees(Runs(items), slice.channel, slice.text);
  }

  /** Held whitespace with nothing behind it stays held. */
  lemma {:induction false} HoldsOn(items: seq<Item>, parts: seq<Part>, open: Option<Channel>, held: string,
                                   scaffolded: bool, channel: Channel)
    requires Tracks(items, parts, open, held, scaffolded) && open == Some(channel)
    ensures Settle(channel, false, held + "") == Absorbed(false, "", held)
  {
    hide PartsOf;
    assert held + "" == held;
    HeldShowsNothing(Runs(items));
  }

  /** A run begins as soon as something is left of a slice after trimming. */
  lemma {:induction false} BeginsWithSomething(channel: Channel, scaffolded: bool, text: string)
    requires channel == Reasoning ==> scaffolded
    ensures var trimmed := TrimStart(MarginOf(channel, scaffolded), text);
            && Settle(channel, true, "" + trimmed) == Settle(channel, true, trimmed)
            && (Settle(channel, true, trimmed).grown == "" <==> trimmed == "")
            && (trimmed == "" ==> Settle(channel, true, trimmed).held == "")
  {
    var run := Words(channel, text);
    assert "" + Content(run, scaffolded) == Content(run, scaffolded);
    if Body(run, scaffolded) == "" {
      NothingShown(run, scaffolded);
    }
  }

  lemma {:induction false} TracksSpeech(items: seq<Item>, parts: seq<Part>, open: Option<Channel>, held: string, scaffolded: bool,
                                        rate: nat, samples: seq<int>)
    requires Tracks(items, parts, open, held, scaffolded)
    ensures var delta := SpeechPart(rate, samples);
            && CanGrow(parts, delta, !SameSound(parts, delta))
            && Tracks(items + [Speech(rate, samples)], Grow(parts, delta, !SameSound(parts, delta)), None, "", scaffolded)
  {
    RunsOneMore(items, Speech(rate, samples));
    SpeechAgrees(Runs(items), rate, samples);
  }

  lemma {:induction false} TrackedParts(items: seq<Item>, parts: seq<Part>, open: Option<Channel>, held: string, scaffolded: bool)
    requires Tracks(items, parts, open, held, scaffolded)
    ensures parts == PartsOf(Runs(items))
  {}

  class Assembler {
    const splitter: ReplyStateMachine
    var parts: seq<Part>
    var open: Option<Channel>
    var held: string
    var scaffolded: bool
    var calls: seq<ToolCall>
    const message: nat
    var nextId: nat
    var stats: Option<Stats>
    var shed: nat
    const maxTokens: Option<nat>
    var finishReason: Option<FinishReason>

    /** The slices and speech absorbed, and the token events they came in. */
    ghost var items: seq<Item>
    ghost var history: seq<TokenEvent>

    ghost predicate Valid()
      reads this
    {
      Tracks(items, parts, open, held, scaffolded)
    }

    /** Between token events everything is as the history has it. */
    ghost predicate Current()
      reads this
    {
      && Valid() && items == ItemsOf(history)
      && calls == CallsOf(message, history) && nextId == UnnamedIn(history)
      && stats == LastStats(history) && shed == ShedOf(history)
    }

    /** Where the scanner stands. */
    function At(): Standing
      reads splitter
    {
      Standing(splitter.channel, splitter.pending)
    }

    constructor (markers: Markers, message: nat, maxTokens: Option<nat>)
      ensures Current() && history == [] && finishReason == None
      ensures this.message == message && this.maxTokens == maxTokens
      ensures fresh(splitter) && splitter.markers == markers && At() == AT_START
    {
      splitter := new ReplyStateMachine(markers);
      parts, open, held, scaffolded := [], None, "", false;
      calls, this.message, nextId := [], message, 0;
      stats, shed, this.maxTokens, finishReason := None, 0, maxTokens, None;
      items, history := [], [];
    }

    /** Whitespace held at the end of a run was the scaffold's. */
    method CloseRun()
      modifies `open, `held
      ensures open == None && held == ""
    {
      open, held := None, "";
    }

    /** A delta begins a part or continues the last. */
    method Report(delta: Part, begins: bool) returns (out: seq<Event>)
      requires CanGrow(parts, delta, begins)
      modifies `parts
      ensures parts == Grow(old(parts), delta, begins) && out == [Delta(delta)]
    {
      if !begins {
        parts := parts[..|parts| - 1] + [Join(parts[|parts| - 1], delta)];
      } else {
        parts := parts + [delta];
      }
      out := [Delta(delta)];
    }

    /** Whitespace at the end of reasoning waits for what follows it. */
    method HoldBack(channel: Channel, text: string) returns (chunk: string)
      modifies `held
      ensures chunk == Settle(channel, true, old(held) + text).grown
      ensures held == Settle(channel, true, old(held) + text).held
    {
      chunk := held + text;
      held := "";
      if channel == Reasoning {
        var body := TrimEnd(chunk);
        held := chunk[|body|..];
        chunk := body;
      }
    }

    /** Route one slice into the parts and the events. */
    method Emit(slice: Slice) returns (out: seq<Event>)
      requires Valid()
      modifies `parts, `open, `held, `scaffolded, `items
      ensures Valid() && items == old(items) + [Emission(slice.channel, slice.text)]
      ensures out == SliceEvents(old(items), slice)
    {
      hide Tracks, Grow, CanGrow, TrimStart, TrimEnd, AbsorbedBehind;
      var channel := slice.channel;
      TracksSlice(items, parts, open, held, scaffolded, slice);
      if open == Some(channel) {
        HoldsOn(items, parts, open, held, scaffolded, channel);
      } else {
        BeginsWithSomething(channel, scaffolded || channel == Reasoning, slice.text);
      }
      items := items + [Emission(channel, slice.text)];
      if channel == Reasoning {
        scaffolded := true;
      }
      if open != Some(channel) {
        CloseRun();
      }
      var begins := open == None;
      var text := if begins then TrimStart(MarginOf(channel, scaffolded), slice.text) else slice.text;
      if text == "" {
        return [];
      }
      var chunk := HoldBack(channel, text);
      open := Some(channel);
      if chunk == "" {
        return [];
      }
      out := Report(PartOf(channel, chunk), begins);
    }

    method EmitAll(slices: seq<Slice>) returns (out: seq<Event>)
      requires Valid()
      modifies `parts, `open, `held, `scaffolded, `items
      ensures Valid() && items == old(items) + AsItems(slices)
      ensures out == SlicesEvents(old(items), slices)
    {
      hide Tracks, SliceEvents;
      out := [];
      for i := 0 to |slices|
        invariant Valid() && items == old(items) + AsItems(slices[..i])
        invariant out == SlicesEvents(old(items), slices[..i])
      {
        assert slices[..i + 1][..i] == slices[..i];
        var more := Emit(slices[i]);
        out := out + more;
        assert AsItems(slices[..i + 1]) == AsItems(slices[..i]) + [Emission(slices[i].channel, slices[i].text)];
      }
      assert slices[..|slices|] == slices;
    }

    method Speak(rate: nat, samples: seq<int>) returns (out: seq<Event>)
      requires Valid()
      modifies `parts, `open, `held, `items
      ensures Valid() && items == old(items) + [Speech(rate, samples)]
      ensures out == [Delta(SpeechPart(rate, samples))]
    {
      hide Tracks;
      TracksSpeech(items, parts, open, held, scaffolded, rate, samples);
      items := items + [Speech(rate, samples)];
      CloseRun();
      var delta := SpeechPart(rate, samples);
      out := Report(delta, !SameSound(parts, delta));
    }

    /** One call becomes a start, its whole arguments, and an end, under the model's id
        or a minted one. The parts are not concerned. */
    method TakeCall(id: Option<string>, name: string, arguments: string) returns (out: seq<Event>)
      modifies `calls, `nextId
      ensures var call := CallFrom(message, old(nextId), id, name, arguments);
              calls == old(calls) + [call] && out == CallEvents(call)
      ensures nextId == old(nextId) + if IsNamed(id) then 0 else 1
    {
      var callId: string;
      if id.Some? && id.value != "" {
        callId := id.value;
      } else {
        callId := Minted(message, nextId);
        nextId := nextId + 1;
      }
      out := [ToolCallStart(callId, name), ToolCallArgumentsDelta(callId, arguments)];
      var call := ToolCall(callId, name, arguments);
      calls := calls + [call];
      out := out + [ToolCallEnd(call)];
    }

    /** Absorb one event of the backend and return the semantic events it amounts to. */
    method Push(event: BackendEvent) returns (out: seq<Event>)
      requires Current()
      modifies this, splitter
      ensures Current() && history == old(history) + [TokenOf(splitter.markers, old(At()), event)]
      ensures At() == StandingAfter(splitter.markers, old(At()), event)
      ensures out == EventsOf(message, old(history), TokenOf(splitter.markers, old(At()), event))
      ensures finishReason == old(finishReason)
    {
      hide Tracks, SlicesEvents, ItemsOf, CallsOf, UnnamedIn, LastStats, ShedOf, SplitOf, Scan, Closed;
      ghost var token := TokenOf(splitter.markers, At(), event);
      OneMoreToken(message, history, token);
      history := history + [token];
      match event {
        case Written(text) =>
          var slices := splitter.PushEmit(text);
          out := EmitAll(slices);
        case Spoken(rate, samples) =>
          var slices := splitter.FlushPending();
          out := EmitAll(slices);
          var spoken := Speak(rate, samples);
          out := out + spoken;
        case Noted(e) => out := Note(e);
      }
    }

    /** What the scanner has no part in. */
    method Note(event: Unscanned) returns (out: seq<Event>)
      modifies `calls, `nextId, `stats, `shed
      ensures calls == old(calls) + CallsOfOne(message, old(nextId), event) && nextId == old(nextId) + Unnamed(event)
      ensures stats == (if event.Reported? then Some(event.stats) else old(stats)) && shed == old(shed) + ShedOfOne(event)
      ensures out == if event.Call? then CallEvents(CallFrom(message, old(nextId), event.id, event.name, event.arguments)) else []
    {
      out := [];
      match event {
        case Call(id, name, arguments) => out := TakeCall(id, name, arguments);
        case Reported(s) => stats := Some(s);
        case ContextTruncated(dropped) => shed := shed + dropped;
        case ContextCompacted(compacted) => shed := shed + compacted;
        case Unhandled =>
      }
    }

    /** The stream ended: flush, account, and name the reason. */
    method Finish(finish: Finish) returns (out: seq<Event>)
      requires Current()
      modifies this, splitter
      ensures var pending := Closed(old(splitter.channel), old(splitter.pending));
              && out == FinishEvents(message, maxTokens, old(history), finish, pending)
              && parts == PartsAfter(old(history), pending)
      ensures calls == CallsOf(message, old(history))
      ensures stats == LastStats(old(history)) && shed == ShedOf(old(history)) && history == old(history)
      ensures finishReason == Some(ReasonAfter(message, maxTokens, old(history), finish))
    {
      hide Tracks, SlicesEvents, ItemsOf, CallsOf, UnnamedIn, LastStats, ShedOf, PartsOf, Runs, ReasonFor, ClosingEvents, Closed;
      var pending := splitter.FlushPending();
      out := EmitAll(pending);
      TrackedParts(items, parts, open, held, scaffolded);
      CloseRun();
      var reason := ReasonFor(finish, calls, stats, maxTokens);
      out := out + ClosingEvents(stats, reason);
      finishReason := Some(reason);
    }

    /** The outcome. An answer that is only calls has no text part, and one with no part
        at all is one empty text part. */
    method Take() returns (content: seq<OutputPart>, reason: FinishReason, statistics: Option<Stats>, dropped: nat)
      modifies `parts, `calls, `finishReason, `stats, `shed
      ensures content == ContentOf(old(parts), old(calls))
      ensures old(finishReason).Some? ==> reason == old(finishReason).value
      ensures statistics == old(stats) && dropped == old(shed)
    {
      var said, called := parts, calls;
      parts, calls := [], [];
      if called == [] && said == [] {
        said := [TextPart("")];
      }
      content := AsPieces(said) + AsCalls(called);
      reason := if finishReason.Some? then finishReason.value else OtherReason("unfinished");
      statistics, dropped := stats, shed;
      finishReason, stats, shed := None, None, 0;
    }
  }

  /** A whole turn. The message is what the batch computation makes of everything that
      was streamed, the deltas spell its parts, and exactly the last event is
      `Finished`, with the reason the turn ended for. */
  method Assemble(markers: Markers, message: nat, maxTokens: Option<nat>, input: seq<BackendEvent>, finish: Finish)
    returns (events: seq<Event>, content: seq<OutputPart>, reason: FinishReason)
    ensures var tokens, pending := TokensOf(markers, AT_START, input), PendingAfter(markers, AT_START, input);
            && content == ContentOf(PartsAfter(tokens, pending), CallsOf(message, tokens))
            && DeltasSpell(Deltas(events), ItemsOf(tokens) + AsItems(pending))
            && Closes(events, LastStats(tokens), reason)
            && Explains(reason, finish, CallsOf(message, tokens), LastStats(tokens), maxTokens)
  {
    hide EventsOf, FinishEvents, Closes, Explains, DeltasSpell, Deltas, PartsAfter, ItemsOf, CallsOf, LastStats, ContentOf, UnnamedIn,
         ShedOf, Tracks, TokenOf, StandingAfter, Closed;
    ghost var tokens, pending := TokensOf(markers, AT_START, input), PendingAfter(markers, AT_START, input);
    var assembler := new Assembler(markers, message, maxTokens);
    events := [];
    for i := 0 to |input|
      invariant assembler.Current() && fresh(assembler) && fresh(assembler.splitter) && assembler.splitter.markers == markers
      invariant assembler.message == message && assembler.maxTokens == maxTokens
      invariant assembler.history + TokensOf(markers, assembler.At(), input[i..]) == tokens
      invariant PendingAfter(markers, assembler.At(), input[i..]) == pending
      invariant events == AllEvents(message, assembler.history) && Running(events)
    {
      ghost var before, token := assembler.history, TokenOf(markers, assembler.At(), input[i]);
      assert input[i..][1..] == input[i + 1..];
      EventsAreRunning(message, before, token);
      var more := assembler.Push(input[i]);
      RunningOn(events, more);
      events := events + more;
      assert (before + [token])[..|before|] == before;
      Reassociate(before, [token], TokensOf(markers, assembler.At(), input[i + 1..]));
    }
    assert input[|input|..] == [] && assembler.history + [] == assembler.history;
    var closing := assembler.Finish(finish);
    TurnSpells(message, maxTokens, tokens, finish, pending);
    FinishCloses(message, maxTokens, tokens, finish, pending);
    ClosesBehind(events, closing, LastStats(tokens), ReasonAfter(message, maxTokens, tokens, finish));
    events := events + closing;
    var stats, shed;
    content, reason, stats, shed := assembler.Take();
  }

  lemma {:induction false} NoDeltas(events: seq<Event>)
    requires forall i :: 0 <= i < |events| ==> !events[i].Delta?
    ensures Deltas(events) == []
  {
    if events != [] {
      NoDeltas(events[..|events| - 1]);
    }
  }
}
