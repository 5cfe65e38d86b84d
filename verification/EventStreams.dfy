/** The blocking stream of src/api/event.rs as the objects it is made of, and the
    life cycle every stream goes through. */
module EventStreams {
  import opened Wrappers
  import opened ReplyScanner
  import opened Assembly
  import opened StreamModel

  // ── Life cycle ────────────────────────────────────────────────────────────

  /** Absorbed one by one, the token events are reported as they are all at once. */
  lemma {:induction false} EventsInOrder(message: nat, absorbed: seq<TokenEvent>, coming: seq<TokenEvent>)
    ensures AllEvents(message, absorbed) + EventsFrom(message, absorbed, coming) == AllEvents(message, absorbed + coming)
    decreases |coming|
  {
    hide EventsOf;
    if coming == [] {
      assert absorbed + coming == absorbed;
      assert AllEvents(message, absorbed) + [] == AllEvents(message, absorbed);
    } else {
      var next := absorbed + [coming[0]];
      EventsInOrder(message, next, coming[1..]);
      assert next[..|absorbed|] == absorbed && next + coming[1..] == absorbed + coming;
      Reassociate(AllEvents(message, absorbed), EventsOf(message, absorbed, coming[0]), EventsFrom(message, next, coming[1..]));
    }
  }

  lemma {:induction false} AllEventsAreRunning(message: nat, tokens: seq<TokenEvent>)
    ensures Running(AllEvents(message, tokens))
    decreases |tokens|
  {
    hide EventsOf, Running;
    if tokens == [] {
      NoneRunning();
    } else {
      var most, last := tokens[..|tokens| - 1], tokens[|tokens| - 1];
      AllEventsAreRunning(message, most);
      EventsAreRunning(message, most, last);
      RunningOn(AllEvents(message, most), EventsOf(message, most, last));
    }
  }

  lemma {:induction false} NoneRunning()
    ensures Running([])
  {}

  /** What a stream that does not fail hands out. */
  function HandedOut(message: nat, maxTokens: Option<nat>, tokens: seq<TokenEvent>, finish: Finish, pending: seq<Slice>): seq<Event> {
    AllEvents(message, tokens) + FinishEvents(message, maxTokens, tokens, finish, pending)
  }

  lemma {:induction false} RemainingOfNew(message: nat, maxTokens: Option<nat>, tokens: seq<TokenEvent>, ending: Ending, closeAfter: bool)
    ensures var c := NewCore(message, maxTokens, tokens, ending, closeAfter);
            Remaining(c)
            == match ending
               case Completed(finish, pending) => Oks(HandedOut(message, maxTokens, tokens, finish, pending))
               case Broken(e) => Oks(AllEvents(message, tokens)) + [Err(e)]
  {
    hide FinishEvents, EventsOf, AllEvents, EventsFrom;
    var c := NewCore(message, maxTokens, tokens, ending, closeAfter);
    EventsInOrder(message, [], tokens);
    NothingReported(message);
    assert [] + tokens == tokens;
    assert Oks([]) == [] && [] + EventsFrom(message, [], tokens) == EventsFrom(message, [], tokens);
    if ending.Completed? {
      OksOfTwo(AllEvents(message, tokens), Closing(c));
    }
  }

  lemma {:induction false} NothingReported(message: nat)
    ensures AllEvents(message, []) == []
  {}

  predicate IsFinished(item: Item) {
    item.Ok? && item.value.Finished?
  }

  /** The items end with `last`, and nothing before it is an error or `Finished`. */
  ghost predicate EndsOnlyWith(items: seq<Item>, last: Item) {
    && items != [] && items[|items| - 1] == last
    && forall i :: 0 <= i < |items| - 1 ==> items[i].Ok? && !IsFinished(items[i])
  }

  /** A stream that does not fail yields exactly one `Finished`, as its last item, with
      the reason of the response, and adds at most one message to the session; one that
      fails yields exactly one error, no `Finished`, and leaves the session alone. */
  lemma {:induction false} LifeCycle(message: nat, maxTokens: Option<nat>, tokens: seq<TokenEvent>, ending: Ending,
                                     closeAfter: bool, s: Transcript)
    ensures var c := NewCore(message, maxTokens, tokens, ending, closeAfter);
            var outcome := OutcomeOf(c, s);
            && Coherent(c)
            && (ending.Completed? ==>
                  && outcome.response.Some? && outcome.failed.None?
                  && EndsOnlyWith(Remaining(c), Ok(Finished(outcome.response.value.reason)))
                  && outcome.transcript.messages
                     == s.messages + (if outcome.response.value.messageId.Some? then [RecordOf(MessageOf(c))] else [])
                  && (outcome.response.value.messageId.Some? <==> WorthRecording(ending.finish, MessageOf(c)))
                  && (outcome.transcript.isOpen <==> s.isOpen && ending.finish != Stopped && !closeAfter))
            && (ending.Broken? ==>
                  && EndsOnlyWith(Remaining(c), Err(ending.error))
                  && outcome == Outcome(s, None, Some(ending.error)))
  {
    hide RecordOf, WorthRecording, FinishEvents, AllEvents, Running, Closes, ContentOf, PartsAfter;
    RemainingOfNew(message, maxTokens, tokens, ending, closeAfter);
    AllEventsAreRunning(message, tokens);
    match ending {
      case Broken(e) => RunningThenError(AllEvents(message, tokens), e);
      case Completed(finish, pending) =>
        assert [] + tokens == tokens;
        var reason := ReasonAfter(message, maxTokens, tokens, finish);
        FinishCloses(message, maxTokens, tokens, finish, pending);
        ClosesBehind(AllEvents(message, tokens), FinishEvents(message, maxTokens, tokens, finish, pending),
                     LastStats(tokens), reason);
        hide Remaining;
        ClosingItems(HandedOut(message, maxTokens, tokens, finish, pending), LastStats(tokens), reason);
    }
  }

  lemma {:induction false} RunningThenError(events: seq<Event>, e: Error)
    requires Running(events)
    ensures EndsOnlyWith(Oks(events) + [Err(e)], Err(e))
  {}

  lemma {:induction false} ClosingItems(events: seq<Event>, stats: Option<Stats>, reason: FinishReason)
    requires Closes(events, stats, reason)
    ensures EndsOnlyWith(Oks(events), Ok(Finished(reason)))
  {
    var most: seq<Event> :| Running(most) && events == most + ClosingEvents(stats, reason);
    assert events[|events| - 1] == Finished(reason);
    assert forall i :: 0 <= i < |events| - 1 ==> !events[i].Finished?;
  }

  /** A turn cancelled before it was dispatched yields `Finished` and nothing else, and
      records nothing. */
  lemma {:induction false} CancelledBeforeStart(message: nat, ending: Ending, s: Transcript)
    ensures var c := CancelledCore(message, ending);
            && Coherent(c) && Remaining(c) == [Ok(Finished(Cancelled))]
            && OutcomeOf(c, s) == Outcome(s, Some(Response([], Cancelled, None, None)), None)
  {
    assert Oks([Finished(Cancelled)]) == [Ok(Finished(Cancelled))];
  }

  /** The stream after `k` calls of the iterator. */
  function AfterCalls(c: Core, s: Transcript, k: nat): (n: Stepped)
    requires Coherent(c)
    ensures Coherent(n.core)
  {
    if k == 0 then Stepped(c, s, None)
    else var n := AfterCalls(c, s, k - 1); NextOf(n.core, n.transcript)
  }

  /** The k-th call yields the k-th of what remained, and from the end on nothing, with
      the outcome reached. */
  lemma {:induction false} KthCall(c: Core, s: Transcript, k: nat)
    requires Coherent(c)
    ensures var n := AfterCalls(c, s, k);
            && Remaining(n.core) == (if k <= |Remaining(c)| then Remaining(c)[k..] else [])
            && OutcomeOf(n.core, n.transcript) == OutcomeOf(c, s)
    ensures k > 0 ==> AfterCalls(c, s, k).item == if k <= |Remaining(c)| then Some(Remaining(c)[k - 1]) else None
    ensures k > |Remaining(c)| ==>
              var n := AfterCalls(c, s, k); OutcomeOf(c, s) == Outcome(n.transcript, n.core.response, n.core.failed)
  {
    hide Remaining, OutcomeOf, NextOf, Coherent;
    if k > 0 {
      KthCall(c, s, k - 1);
      var n := AfterCalls(c, s, k - 1);
      NextTakesFirst(n.core, n.transcript);
    }
  }

  // ── The objects ───────────────────────────────────────────────────────────

  class Session {
    var messages: seq<Recorded>
    var isOpen: bool
    var shed: nat

    constructor ()
      ensures Abs() == Transcript([], true, 0)
    {
      messages, isOpen, shed := [], true, 0;
    }

    function Abs(): Transcript
      reads this
    {
      Transcript(messages, isOpen, shed)
    }

    /** Append a message under the next id. */
    method Push(message: Recorded) returns (id: nat)
      modifies `messages
      ensures messages == old(messages) + [message] && id == |old(messages)|
    {
      id := |messages|;
      messages := messages + [message];
    }
  }

  /** How a stream ends for the assembler, with what the scanner still holds. */
  function EndingOf(ends: Result<Finish, Error>, pending: seq<Slice>): Ending {
    match ends
    case Ok(finish) => Completed(finish, pending)
    case Err(e) => Broken(e)
  }

  /** The new stream over what a backend will report. */
  ghost function CoreFor(markers: Markers, message: nat, maxTokens: Option<nat>, input: seq<BackendEvent>, ends: Result<Finish, Error>,
                         closeAfter: bool): Core {
    NewCore(message, maxTokens, TokensOf(markers, AT_START, input), EndingOf(ends, PendingAfter(markers, AT_START, input)), closeAfter)
  }

  class StreamCore {
    var inner: seq<BackendEvent>
    const ends: Result<Finish, Error>
    const assembler: Assembler
    ghost const ending: Ending
    var queue: seq<Event>
    var done: bool
    var settled: bool
    var failed: Option<Error>
    var response: Option<Response>
    const closeAfter: bool

    /** While the stream is not settled, the assembler has absorbed what left `inner`. */
    ghost predicate Valid()
      reads this, assembler, assembler.splitter
    {
      Coherent(Abs()) && (!settled ==> assembler.Current() && ending == EndingOf(ends, Pending()))
    }

    ghost function Abs(): Core
      reads this, assembler, assembler.splitter
    {
      Core(assembler.message, assembler.maxTokens, assembler.history, Coming(), ending, queue, done, settled, failed,
           response, closeAfter)
    }

    ghost function Coming(): seq<TokenEvent>
      reads `inner, assembler.splitter
    {
      TokensOf(assembler.splitter.markers, assembler.At(), inner)
    }

    ghost function Pending(): seq<Slice>
      reads `inner, assembler.splitter
    {
      PendingAfter(assembler.splitter.markers, assembler.At(), inner)
    }

    constructor (markers: Markers, message: nat, maxTokens: Option<nat>, input: seq<BackendEvent>, ends: Result<Finish, Error>,
                 closeAfter: bool)
      ensures Valid() && Abs() == CoreFor(markers, message, maxTokens, input, ends, closeAfter)
      ensures fresh(assembler) && fresh(assembler.splitter)
    {
      inner, this.ends, this.closeAfter := input, ends, closeAfter;
      assembler := new Assembler(markers, message, maxTokens);
      ending := EndingOf(ends, PendingAfter(markers, AT_START, input));
      queue, done, settled, failed, response := [], false, false, None, None;
    }

    constructor CancelledBeforeStart(markers: Markers, message: nat, ends: Result<Finish, Error>)
      ensures Valid() && Abs() == CancelledCore(message, EndingOf(ends, []))
      ensures fresh(assembler) && fresh(assembler.splitter)
    {
      inner, this.ends, closeAfter := [], ends, false;
      assembler := new Assembler(markers, message, None);
      ending := EndingOf(ends, []);
      done, settled, failed := true, true, None;
      queue, response := [Finished(Cancelled)], Some(Response([], Cancelled, None, None));
    }

    /** Assemble the next event of the backend. */
    method AbsorbNext()
      requires Valid() && !done && queue == [] && inner != []
      modifies `queue, `inner, assembler, assembler.splitter
      ensures Valid() && Abs() == Absorb(old(Abs())) && inner == old(inner)[1..]
    {
      hide EventsOf, Tracks, ItemsOf, CallsOf, UnnamedIn, LastStats, ShedOf, TokenOf, StandingAfter;
      var events := assembler.Push(inner[0]);
      queue := queue + events;
      inner := inner[1..];
    }

    /** The next event while the backend is still producing them. */
    method Pull() returns (item: Option<Item>)
      requires Valid()
      modifies this, assembler, assembler.splitter
      ensures Valid() && Abs() == PullOf(old(Abs())).core && item == PullOf(old(Abs())).item
    {
      hide EventsOf, Tracks, ItemsOf, CallsOf, UnnamedIn, LastStats, ShedOf, TokenOf, StandingAfter, Closed;
      PullKeepsCoherent(Abs());
      while true
        invariant Valid() && PullOf(Abs()) == PullOf(old(Abs()))
        decreases |inner|
      {
        if queue != [] {
          item := Some(Ok(queue[0]));
          queue := queue[1..];
          return;
        }
        if done {
          return None;
        }
        if inner != [] {
          AbsorbNext();
        } else if ends.Err? {
          done := true;
          failed := Some(ends.error);
          return Some(Err(ends.error));
        } else {
          done := true;
          return None;
        }
      }
    }

    /** Record the outcome in the session and queue the closing events. */
    method Complete(session: Session)
      requires Valid() && NeedsCompletion(Abs())
      modifies this, assembler, assembler.splitter, session
      ensures Valid() && Abs() == CompleteOf(old(Abs()), old(session.Abs()))
      ensures session.Abs() == Settled(old(Abs()), old(session.Abs()))
    {
      hide FinishEvents, PartsAfter, CallsOf, LastStats, ShedOf, ContentOf, RecordOf, WorthRecording, ReasonAfter, Tracks,
           ItemsOf, UnnamedIn, TokenOf, StandingAfter, Closed;
      ghost var c := Abs();
      assert inner == [] && Tokens(c) == assembler.history;
      settled := true;
      var finish := ends.value;
      var cancelled := finish == Stopped;
      var closing := assembler.Finish(finish);
      queue := queue + closing;
      var content, reason, stats, shed := assembler.Take();
      session.shed := session.shed + shed;
      var messageId: Option<nat> := None;
      if WorthRecording(finish, content) {
        var id := session.Push(RecordOf(content));
        messageId := Some(id);
      }
      if cancelled || closeAfter {
        session.isOpen := false;
      }
      response := Some(Response(content, reason, stats, messageId));
    }

    /** A closing event, if any is left. */
    method PopQueued() returns (event: Option<Event>)
      modifies `queue
      ensures Abs() == old(Abs()).(queue := queue)
      ensures event == (if old(queue) == [] then None else Some(old(queue)[0]))
      ensures queue == if old(queue) == [] then [] else old(queue)[1..]
    {
      if queue == [] {
        return None;
      }
      event := Some(queue[0]);
      queue := queue[1..];
    }

    /** The outcome, once everything has been drained: given out once. */
    method TakeResponse() returns (r: Result<Response, Error>)
      modifies `response, `failed
      ensures r == TakenFrom(old(response), old(failed))
      ensures old(response).Some? ==> r == Ok(old(response).value)
      ensures old(response).None? && old(failed).Some? ==> r == Err(old(failed).value)
      ensures old(response).None? && old(failed).None? ==>
                r == Err(Error("stream_failed", "the stream ended without an outcome"))
      ensures response == None
    {
      match response {
        case Some(taken) =>
          response := None;
          return Ok(taken);
        case None =>
          var failure := if failed.Some? then failed.value else NO_OUTCOME;
          failed := None;
          return Err(failure);
      }
    }
  }

  const NO_OUTCOME := Error("stream_failed", "the stream ended without an outcome")

  function TakenFrom(response: Option<Response>, failed: Option<Error>): Result<Response, Error> {
    if response.Some? then Ok(response.value) else Err(if failed.Some? then failed.value else NO_OUTCOME)
  }

  predicate AllOk(items: seq<Item>) {
    forall i :: 0 <= i < |items| ==> items[i].Ok?
  }

  /** What finishing a stream returns: its first error, or else its outcome. */
  ghost predicate Finishes(items: seq<Item>, outcome: Outcome, r: Result<Response, Error>) {
    if AllOk(items) then r == TakenFrom(outcome.response, outcome.failed)
    else exists k :: 0 <= k < |items| && AllOk(items[..k]) && items[k].Err? && r == Err(items[k].error)
  }

  /** Finishing a new stream returns the response of a turn that does not fail, and the error
      of one that does. */
  lemma {:induction false} FinishGivesTheOutcome(message: nat, maxTokens: Option<nat>, tokens: seq<TokenEvent>, ending: Ending,
                                                 closeAfter: bool, s: Transcript, r: Result<Response, Error>)
    requires var c := NewCore(message, maxTokens, tokens, ending, closeAfter); Finishes(Remaining(c), OutcomeOf(c, s), r)
    ensures match ending
            case Broken(e) => r == Err(e)
            case Completed(_, _) =>
              var c := NewCore(message, maxTokens, tokens, ending, closeAfter);
              OutcomeOf(c, s).response.Some? && r == Ok(OutcomeOf(c, s).response.value)
  {
    hide Remaining, RecordOf, WorthRecording, ContentOf, PartsAfter, CallsOf, LastStats, ShedOf, ReasonAfter;
    var c := NewCore(message, maxTokens, tokens, ending, closeAfter);
    LifeCycle(message, maxTokens, tokens, ending, closeAfter, s);
    var items := Remaining(c);
    var last := |items| - 1;
    if ending.Broken? {
      assert !AllOk(items);
      var k :| 0 <= k < |items| && AllOk(items[..k]) && items[k].Err? && r == Err(items[k].error);
      assert k == last;
    } else {
      assert items[last].Ok?;
      assert AllOk(items);
    }
  }

  class EventStream {
    const core: StreamCore
    const session: Session

    constructor (core: StreamCore, session: Session)
      ensures this.core == core && this.session == session
    {
      this.core, this.session := core, session;
    }

    /** The blocking iterator. */
    method Next() returns (item: Option<Item>)
      requires core.Valid()
      modifies core, core.assembler, core.assembler.splitter, session
      ensures core.Valid()
      ensures var n := NextOf(old(core.Abs()), old(session.Abs()));
              core.Abs() == n.core && session.Abs() == n.transcript && item == n.item
    {
      hide PullOf, CompleteOf, Settled, Tracks, ItemsOf, CallsOf, UnnamedIn, LastStats, ShedOf;
      PullKeepsCoherent(core.Abs());
      item := core.Pull();
      if item.None? && core.done && !core.settled && core.failed.None? {
        core.Complete(session);
        PullKeepsCoherent(core.Abs());
        item := core.Pull();
      }
    }

    /** Drain whatever is left and return the outcome. */
    method Finish() returns (r: Result<Response, Error>)
      requires core.Valid()
      modifies core, core.assembler, core.assembler.splitter, session
      ensures Finishes(Remaining(old(core.Abs())), OutcomeOf(old(core.Abs()), old(session.Abs())), r)
    {
      hide Remaining, OutcomeOf, NextOf, Coherent, Tracks, ItemsOf, CallsOf, UnnamedIn, LastStats, ShedOf;
      ghost var all, outcome := Remaining(core.Abs()), OutcomeOf(core.Abs(), session.Abs());
      ghost var k := 0;
      while true
        invariant core.Valid() && k <= |all| && AllOk(all[..k])
        invariant Remaining(core.Abs()) == all[k..] && OutcomeOf(core.Abs(), session.Abs()) == outcome
        decreases |all| - k
      {
        NextTakesFirst(core.Abs(), session.Abs());
        var item := Next();
        if item.None? {
          assert all[..k] == all;
          break;
        }
        if item.value.Err? {
          return Err(item.value.error);
        }
        k := k + 1;
      }
      r := core.TakeResponse();
    }
  }
}
