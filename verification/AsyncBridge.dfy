/** The async surface of src/api/async_turn.rs: a worker pulls events into a bounded
    channel, and the consumer polls them out and settles the session. Worker and
    consumer interleave in any order. */
module AsyncBridge {
  import opened Wrappers
  import opened Assembly
  import opened StreamModel
  import opened EventStreams

  const EVENT_BUFFER: nat := 64

  /** The worker's core travels with it: pulling (with an event it still has to send),
      about to drop its sender, returning, returned. */
  datatype Worker =
    | NotSpawned
    | Working(core: Core, held: Option<StreamModel.Item>)
    | Closing(core: Core)
    | Returning(core: Core)
    | Returned(core: Core)
    | Joined

  datatype Bridge = Bridge(worker: Worker, closed: bool, channel: seq<StreamModel.Item>, tail: Option<Core>,
                           transcript: Transcript, consumed: seq<StreamModel.Item>, ended: bool, completions: nat)

  /** A core as `begin` makes it: still to run, or over before it began. */
  predicate Startable(c: Core) {
    Coherent(c) && (c.done ==> c.settled)
  }

  function Start(c: Core, s: Transcript): Bridge {
    if c.done then Bridge(NotSpawned, true, [], Some(c), s, [], false, 0)
    else Bridge(Working(c, None), false, [], None, s, [], false, 0)
  }

  // ── Steps ─────────────────────────────────────────────────────────────────

  datatype Step = Pull | Send | DropSender | Return | Poll

  predicate Enabled(b: Bridge, step: Step) {
    match step
    case Pull => b.worker.Working? && b.worker.held.None?
    case Send => b.worker.Working? && b.worker.held.Some? && |b.channel| < EVENT_BUFFER
    case DropSender => b.worker.Closing?
    case Return => b.worker.Returning?
    case Poll => true
  }

  /** Yield the next closing event, or the end. */
  function PopTail(b: Bridge): Bridge
    requires b.tail.Some?
  {
    var core := b.tail.value;
    if core.queue == [] then b.(ended := true)
    else b.(tail := Some(core.(queue := core.queue[1..])), consumed := b.consumed + [Ok(core.queue[0])])
  }

  /** Take the core back from the worker and write the outcome to the session. */
  function Settle(b: Bridge): Bridge
    requires b.worker.Returned?
  {
    var core := b.worker.core;
    if NeedsCompletion(core) && core.ending.Completed?
    then b.(worker := Joined, tail := Some(CompleteOf(core, b.transcript)),
            transcript := Settled(core, b.transcript), completions := b.completions + 1)
    else b.(worker := Joined, tail := Some(core))
  }

  /** One poll of the consumer; a pending poll changes nothing. */
  function PollOf(b: Bridge): Bridge {
    if b.tail.Some? then PopTail(b)
    else if b.channel != [] then b.(channel := b.channel[1..], consumed := b.consumed + [b.channel[0]])
    else if !b.closed then b
    else match b.worker
      case Returned(_) => PopTail(Settle(b))
      case NotSpawned => b.(ended := true)
      case Joined => b.(ended := true)
      case _ => b
  }

  function Next(b: Bridge, step: Step): Bridge
    requires Enabled(b, step)
  {
    match step
    case Pull =>
      var p := StreamModel.PullOf(b.worker.core);
      b.(worker := if p.item.Some? then Working(p.core, p.item) else Closing(p.core))
    case Send => b.(worker := b.worker.(held := None), channel := b.channel + [b.worker.held.value])
    case DropSender => b.(worker := Returning(b.worker.core), closed := true)
    case Return => b.(worker := Returned(b.worker.core))
    case Poll => PollOf(b)
  }

  // ── What holds throughout ─────────────────────────────────────────────────

  predicate HasCore(worker: Worker) {
    !worker.NotSpawned? && !worker.Joined?
  }

  function Held(worker: Worker): seq<StreamModel.Item> {
    if worker.Working? && worker.held.Some? then [worker.held.value] else []
  }

  /** While the worker has the core: what was pulled is consumed, in the channel or in
      its hand, in that order, and the session is untouched. */
  ghost predicate WorkerHasCore(b: Bridge, c0: Core, s0: Transcript)
    requires HasCore(b.worker)
  {
    var core := b.worker.core;
    && b.tail.None? && !b.ended && b.completions == 0 && b.transcript == s0
    && (b.closed <==> b.worker.Returning? || b.worker.Returned?)
    && Coherent(core) && !core.settled
    && (!b.worker.Working? ==> core.done && core.queue == [])
    && ToPull(c0) == b.consumed + b.channel + Held(b.worker) + ToPull(core)
    && ToClose(core) == ToClose(c0)
    && OutcomeOf(core, s0) == OutcomeOf(c0, s0)
  }

  /** Once the consumer has it: everything pulled has been consumed, and the rest is
      the queue. */
  ghost predicate TailHasCore(b: Bridge, c0: Core, s0: Transcript) {
    && b.tail.Some? && b.closed && b.channel == []
    && var core := b.tail.value;
    && Coherent(core) && core.done && !NeedsCompletion(core)
    && Remaining(c0) == b.consumed + Oks(core.queue)
    && (b.worker.Joined? ==> ToPull(c0) <= b.consumed)
    && (b.ended ==> core.queue == [])
    && b.completions <= 1 && (b.completions == 1 ==> b.worker.Joined?) && (b.completions == 0 ==> b.transcript == s0)
    && OutcomeOf(c0, s0) == Outcome(b.transcript, core.response, core.failed)
  }

  ghost predicate Inv(b: Bridge, c0: Core, s0: Transcript) {
    && |b.channel| <= EVENT_BUFFER
    && if HasCore(b.worker) then WorkerHasCore(b, c0, s0) else TailHasCore(b, c0, s0)
  }

  lemma {:induction false} DoneMeansOutcome(c: Core, s: Transcript)
    requires Coherent(c) && c.done && !NeedsCompletion(c)
    ensures OutcomeOf(c, s) == Outcome(s, c.response, c.failed)
    ensures Remaining(c) == Oks(c.queue)
  {}

  lemma {:induction false} StartInv(c: Core, s: Transcript)
    requires Startable(c)
    ensures Inv(Start(c, s), c, s)
  {
    if c.done {
      DoneMeansOutcome(c, s);
    }
  }

  lemma {:induction false} MoveOne<T>(a: seq<T>, b: seq<T>, x: T, c: seq<T>)
    ensures a + b + [x] + c == a + (b + [x]) + [] + c
    ensures a + ([x] + b) + c == (a + [x]) + b + c
    ensures c != [] ==> a + b + [] + c == a + b + [c[0]] + c[1..]
  {}

  lemma {:induction false} PullKeepsInv(b: Bridge, c0: Core, s0: Transcript)
    requires Inv(b, c0, s0) && Enabled(b, Pull)
    ensures Inv(Next(b, Pull), c0, s0)
  {
    hide ToPull, ToClose, OutcomeOf, StreamModel.PullOf, Coherent;
    var core := b.worker.core;
    PullKeepsCoherent(core);
    PullTakesFirst(core, s0);
    if ToPull(core) != [] {
      MoveOne(b.consumed, b.channel, ToPull(core)[0], ToPull(core));
    }
  }

  lemma {:induction false} WorkerKeepsInv(b: Bridge, c0: Core, s0: Transcript, step: Step)
    requires Inv(b, c0, s0) && Enabled(b, step) && step in {Send, DropSender, Return}
    ensures Inv(Next(b, step), c0, s0)
  {
    hide ToPull, ToClose, OutcomeOf, Coherent;
    if step == Send {
      MoveOne(b.consumed, b.channel, b.worker.held.value, ToPull(b.worker.core));
    }
  }

  lemma {:induction false} PopKeepsInv(b: Bridge, c0: Core, s0: Transcript)
    requires TailHasCore(b, c0, s0)
    ensures TailHasCore(PopTail(b), c0, s0)
    ensures PopTail(b).worker == b.worker
  {
    hide ToPull, ToClose, OutcomeOf;
    var core := b.tail.value;
    if core.queue != [] {
      var item: StreamModel.Item := Ok(core.queue[0]);
      assert Oks(core.queue) == [item] + Oks(core.queue[1..]);
      assert b.consumed + Oks(core.queue) == (b.consumed + [item]) + Oks(core.queue[1..]);
    }
  }

  lemma {:induction false} TakeKeepsInv(b: Bridge, c0: Core, s0: Transcript)
    requires Inv(b, c0, s0) && b.tail.None? && b.channel != []
    ensures Inv(PollOf(b), c0, s0)
  {
    hide ToPull, ToClose, OutcomeOf, Coherent;
    assert b.channel == [b.channel[0]] + b.channel[1..];
    MoveOne(b.consumed, b.channel[1..], b.channel[0], Held(b.worker));
  }

  lemma {:induction false} SettleKeepsInv(b: Bridge, c0: Core, s0: Transcript)
    requires Inv(b, c0, s0) && b.tail.None? && b.channel == [] && b.worker.Returned?
    ensures TailHasCore(Settle(b), c0, s0) && Settle(b).worker == Joined
  {
    var core := b.worker.core;
    assert ToPull(core) == [];
    assert ToPull(c0) == b.consumed;
    if NeedsCompletion(core) {
      CompleteKeepsRemaining(core, s0);
      var closed, t := CompleteOf(core, s0), Settled(core, s0);
      DoneMeansOutcome(closed, t);
    } else {
      DoneMeansOutcome(core, s0);
    }
  }

  lemma {:induction false} StepKeepsInv(b: Bridge, c0: Core, s0: Transcript, step: Step)
    requires Inv(b, c0, s0) && Enabled(b, step)
    ensures Inv(Next(b, step), c0, s0)
  {
    hide TailHasCore, WorkerHasCore;
    match step {
      case Pull => PullKeepsInv(b, c0, s0);
      case Send => WorkerKeepsInv(b, c0, s0, step);
      case DropSender => WorkerKeepsInv(b, c0, s0, step);
      case Return => WorkerKeepsInv(b, c0, s0, step);
      case Poll => PollKeepsInv(b, c0, s0);
    }
  }

  lemma {:induction false} PollKeepsInv(b: Bridge, c0: Core, s0: Transcript)
    requires Inv(b, c0, s0)
    ensures Inv(PollOf(b), c0, s0)
  {
    hide ToPull, ToClose, OutcomeOf, Coherent, NeedsCompletion;
    if !HasCore(b.worker) {
      PopKeepsInv(b, c0, s0);
    } else if b.channel != [] {
      TakeKeepsInv(b, c0, s0);
    } else if b.worker.Returned? {
      SettleKeepsInv(b, c0, s0);
      PopKeepsInv(Settle(b), c0, s0);
    }
  }

  // ── Runs ──────────────────────────────────────────────────────────────────

  ghost predicate ValidRun(b: Bridge, steps: seq<Step>)
    decreases |steps|
  {
    steps == [] || (Enabled(b, steps[0]) && ValidRun(Next(b, steps[0]), steps[1..]))
  }

  /** Where an interleaving of worker and consumer ends up. */
  ghost function After(b: Bridge, steps: seq<Step>): Bridge
    requires ValidRun(b, steps)
    decreases |steps|
  {
    if steps == [] then b else After(Next(b, steps[0]), steps[1..])
  }

  lemma {:induction false} RunKeepsInv(b: Bridge, steps: seq<Step>, c0: Core, s0: Transcript)
    requires Inv(b, c0, s0) && ValidRun(b, steps)
    ensures Inv(After(b, steps), c0, s0)
    decreases |steps|
  {
    if steps != [] {
      StepKeepsInv(b, c0, s0, steps[0]);
      RunKeepsInv(Next(b, steps[0]), steps[1..], c0, s0);
    }
  }

  /** At no point of any interleaving has the consumer seen anything but the first so
      many items of the blocking iterator, nor does the channel hold more than its
      capacity. The session is written at most once, and only after everything pulled
      from the backend has been consumed. */
  lemma {:induction false} AlwaysAPrefix(c0: Core, s0: Transcript, steps: seq<Step>)
    requires Startable(c0) && ValidRun(Start(c0, s0), steps)
    ensures var b := After(Start(c0, s0), steps);
            && b.consumed <= Remaining(c0)
            && |b.channel| <= 64
            && b.completions <= 1
            && (b.completions == 0 ==> b.transcript == s0)
            && (b.completions == 1 ==> ToPull(c0) <= b.consumed)
    ensures var b := After(Start(c0, s0), steps);
            forall k: nat :: k < |b.consumed| ==> AfterCalls(c0, s0, k + 1).item == Some(b.consumed[k])
  {
    hide Inv, Start, After, Remaining, ToPull, AfterCalls;
    StartInv(c0, s0);
    RunKeepsInv(Start(c0, s0), steps, c0, s0);
    var b := After(Start(c0, s0), steps);
    ConsumedIsPrefix(b, c0, s0);
    forall k: nat | k < |b.consumed|
      ensures AfterCalls(c0, s0, k + 1).item == Some(b.consumed[k])
    {
      KthCall(c0, s0, k + 1);
    }
  }

  lemma {:induction false} ConsumedIsPrefix(b: Bridge, c0: Core, s0: Transcript)
    requires Inv(b, c0, s0)
    ensures b.consumed <= Remaining(c0) && |b.channel| <= EVENT_BUFFER
    ensures b.completions <= 1 && (b.completions == 0 ==> b.transcript == s0)
    ensures b.completions == 1 ==> ToPull(c0) <= b.consumed
  {
    hide ToPull, ToClose, OutcomeOf, Coherent, NeedsCompletion;
    if HasCore(b.worker) {
      assert ToPull(c0) == b.consumed + (b.channel + Held(b.worker) + ToPull(b.worker.core));
    }
  }

  /** When the async stream has ended, it has yielded exactly what the blocking iterator
      yields before it returns nothing, and the session, the response and the failure
      are the same. */
  lemma {:induction false} SameAsBlocking(c0: Core, s0: Transcript, steps: seq<Step>)
    requires Startable(c0) && ValidRun(Start(c0, s0), steps)
    requires After(Start(c0, s0), steps).ended
    ensures var b := After(Start(c0, s0), steps);
            var blocking := AfterCalls(c0, s0, |b.consumed| + 1);
            && b.consumed == Remaining(c0)
            && blocking.item == None
            && b.tail.Some?
            && b.transcript == blocking.transcript
            && b.tail.value.response == blocking.core.response
            && b.tail.value.failed == blocking.core.failed
  {
    StartInv(c0, s0);
    RunKeepsInv(Start(c0, s0), steps, c0, s0);
    var b := After(Start(c0, s0), steps);
    EndedMeansAll(b, c0, s0);
    KthCall(c0, s0, |b.consumed| + 1);
  }

  lemma {:induction false} EndedMeansAll(b: Bridge, c0: Core, s0: Transcript)
    requires Inv(b, c0, s0) && b.ended
    ensures b.consumed == Remaining(c0) && b.tail.Some?
    ensures OutcomeOf(c0, s0) == Outcome(b.transcript, b.tail.value.response, b.tail.value.failed)
  {
    hide ToPull, ToClose, OutcomeOf, Coherent, NeedsCompletion;
    assert Oks([]) == [];
  }

  // ── Progress ──────────────────────────────────────────────────────────────

  function CoreOf(b: Bridge): Option<Core> {
    if HasCore(b.worker) then Some(b.worker.core) else b.tail
  }

  function Phase(worker: Worker): nat {
    match worker
    case Working(_, _) => 4
    case Closing(_) => 3
    case Returning(_) => 2
    case Returned(_) => 1
    case _ => 0
  }

  /** What is left to do: every item has to be pulled, sent and taken. */
  function Work(b: Bridge): nat {
    (if CoreOf(b).Some? then 3 * |Remaining(CoreOf(b).value)| else 0)
    + 2 * |Held(b.worker)| + |b.channel| + Phase(b.worker) + if b.ended then 0 else 1
  }

  /** Steps that do something; a poll that finds nothing does not. */
  predicate Moves(b: Bridge, step: Step) {
    Enabled(b, step) && Next(b, step) != b
  }

  /** The channel takes an event as long as it holds fewer than 64, whatever the consumer
      does. */
  lemma {:induction false} SendsUnlessFull(b: Bridge)
    requires b.worker.Working? && b.worker.held.Some?
    ensures Enabled(b, Send) <==> |b.channel| < 64
    ensures |b.channel| < 64 ==> Next(b, Send).channel == b.channel + [b.worker.held.value] && Next(b, Send).worker.held.None?
  {}

  /** Until the stream has ended the worker can go on or a poll yields something: the
      full channel never blocks both sides. */
  lemma {:induction false} NeverStuck(b: Bridge, c0: Core, s0: Transcript)
    requires Inv(b, c0, s0) && !b.ended
    ensures exists step: Step :: Moves(b, step)
  {
    hide ToPull, ToClose, OutcomeOf, Coherent, NeedsCompletion, StreamModel.PullOf;
    if b.tail.Some? || b.channel != [] {
      assert Moves(b, Poll);
    } else {
      match b.worker {
        case Working(_, held) =>
          if held.None? {
            assert Moves(b, Pull);
          } else {
            assert Moves(b, Send);
          }
        case Closing(_) => assert Moves(b, DropSender);
        case Returning(_) => assert Moves(b, Return);
        case Returned(_) => assert Moves(b, Poll);
      }
    }
  }

  /** Every step that does something brings the end closer, so the stream ends. */
  lemma {:induction false} MovesDoWork(b: Bridge, c0: Core, s0: Transcript, step: Step)
    requires Inv(b, c0, s0) && Moves(b, step)
    ensures Work(Next(b, step)) < Work(b)
  {
    hide ToPull, ToClose, OutcomeOf, Coherent, NeedsCompletion, StreamModel.PullOf;
    match step {
      case Pull =>
        PullTakesFirst(b.worker.core, s0);
        PullKeepsCoherent(b.worker.core);
      case Poll => PollDoesWork(b, c0, s0);
      case _ =>
    }
  }

  lemma {:induction false} PollDoesWork(b: Bridge, c0: Core, s0: Transcript)
    requires Inv(b, c0, s0) && PollOf(b) != b
    ensures Work(PollOf(b)) < Work(b)
  {
    hide ToPull, ToClose, OutcomeOf, Coherent, NeedsCompletion;
    if !HasCore(b.worker) {
      PopDoesWork(b, c0, s0);
    } else if b.channel == [] && b.worker.Returned? {
      SettleKeepsInv(b, c0, s0);
      SettleDoesWork(b, c0, s0);
      PopDoesWork(Settle(b), c0, s0);
    }
  }

  lemma {:induction false} PopDoesWork(b: Bridge, c0: Core, s0: Transcript)
    requires TailHasCore(b, c0, s0) && !HasCore(b.worker)
    ensures PopTail(b) == b || Work(PopTail(b)) < Work(b)
  {
    PopKeepsInv(b, c0, s0);
    DoneMeansOutcome(b.tail.value, b.transcript);
    DoneMeansOutcome(PopTail(b).tail.value, b.transcript);
  }

  lemma {:induction false} SettleDoesWork(b: Bridge, c0: Core, s0: Transcript)
    requires Inv(b, c0, s0) && b.tail.None? && b.channel == [] && b.worker.Returned?
    ensures Work(Settle(b)) < Work(b)
  {
    hide ToPull, ToClose, OutcomeOf, CompleteOf, Settled;
    var core := b.worker.core;
    if NeedsCompletion(core) {
      CompleteKeepsRemaining(core, s0);
    }
  }

  /** No interleaving takes more steps that do something than the start had work. */
  lemma {:induction false} RunsAreFinite(b: Bridge, c0: Core, s0: Transcript, steps: seq<Step>)
    requires Inv(b, c0, s0) && ValidRun(b, steps)
    ensures MovesIn(b, steps) + Work(After(b, steps)) <= Work(b)
    decreases |steps|
  {
    hide Inv, Work;
    if steps != [] {
      StepKeepsInv(b, c0, s0, steps[0]);
      if Moves(b, steps[0]) {
        MovesDoWork(b, c0, s0, steps[0]);
      }
      RunsAreFinite(Next(b, steps[0]), c0, s0, steps[1..]);
    }
  }

  ghost function MovesIn(b: Bridge, steps: seq<Step>): nat
    requires ValidRun(b, steps)
    decreases |steps|
  {
    if steps == [] then 0
    else (if Moves(b, steps[0]) then 1 else 0) + MovesIn(Next(b, steps[0]), steps[1..])
  }
}
