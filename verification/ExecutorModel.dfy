/** The streaming tool executor of src/executor.rs as a transition system.

    Every atomic action of the submitters, of the spawned tasks and of the
    executor loop is one `Event`; `Enabled` says when it can happen and `Next`
    what it does. Channels are sequences, semaphores are counters, and an atomic
    load or store is part of the single step that performs it. */
module ExecutorModel {
  import opened Wrappers

  datatype Guard = Safe | GpuBound | Exclusive

  /** An operation as the sequence of its atomic accesses to shared state: each one
      observes the state and, knowing all it observed before, leaves a new one
      behind. The output is computed from everything it observed. A reader leaves
      the state as it found it. */
  datatype Op<!S, !T> = Op(guard: Guard, accesses: seq<(seq<S>, S) -> S>, output: seq<S> -> T)

  datatype Envelope<!S, !T> = Envelope(seqNo: nat, op: Op<S, T>)

  datatype Completion<!T> = Completion(seqNo: nat, result: Option<T>)

  /** One position of the ordered result buffer. */
  datatype Slot<!T> = Pending | Skipped | Ready(value: T)

  /** How far an operation the loop has taken from the submit channel has come.
      A result of `None` means that it was skipped because of a cancellation. */
  datatype Stage<!S, !T> =
    | Waiting
    | Running(seen: seq<S>)
    | Finished(result: Option<T>)
    | Sent(result: Option<T>)
    | Received(result: Option<T>)

  datatype Task<!S, !T> = Task(op: Op<S, T>, stage: Stage<S, T>, general: bool, gpu: bool)
  {
    predicate Concurrent() {
      op.guard != Exclusive
    }

    /** The operation's body has begun to run. */
    predicate Started() {
      match stage
      case Waiting => false
      case Running(_) => true
      case Finished(r) => r.Some?
      case Sent(r) => r.Some?
      case Received(r) => r.Some?
    }

    predicate HasSent() {
      stage.Sent? || stage.Received?
    }
  }

  /** Where the executor loop is. */
  datatype Control =
    | Selecting
    | Draining(seqNo: nat)
    | RunningExclusive(seqNo: nat)
    | Closing
    | Exited

  datatype State<!S, !T> = State(
    max: nat,
    // The handle: every accepted operation, the submit channel, the two flags.
    ops: seq<Op<S, T>>,
    submitted: seq<Envelope<S, T>>,
    open: bool,
    cancelled: bool,
    // The spawned tasks, the two semaphores and the completion channel.
    tasks: seq<Task<S, T>>,
    general: nat,
    gpu: nat,
    done: seq<Completion<T>>,
    // The locals of the loop and the result channel.
    control: Control,
    inFlight: int,
    buffer: seq<Slot<T>>,
    cursor: nat,
    delivered: seq<T>,
    // What the operations read and write.
    shared: S)

  datatype Event<!S, !T> =
    | Submit(op: Op<S, T>)
    | CancelFlag
    | Close
    | AcquireGeneral(i: nat)
    | AcquireGpu(i: nat)
    | CheckAndStart(i: nat)
    | Access(i: nat)
    | Finish(i: nat)
    | Send(i: nat)
    | ReleaseGpu(i: nat)
    | ReleaseGeneral(i: nat)
    | ReceiveCompletion
    | ReceiveEnvelope
    | ReceiveClosed
    | StartExclusive
    | FinishExclusive
    | ExitLoop
  {
    /** A step of the caller's threads. */
    predicate External() {
      Submit? || CancelFlag? || Close?
    }

    /** A step of the executor loop's own code. */
    predicate OfLoop() {
      || ReceiveCompletion? || ReceiveEnvelope? || ReceiveClosed?
      || StartExclusive? || FinishExclusive? || ExitLoop?
    }
  }

  function Init<S, T>(maxConcurrent: nat, shared: S): State<S, T> {
    var max := if maxConcurrent == 0 then 1 else maxConcurrent;
    State(max, [], [], true, false, [], max, 1, [], Selecting, 0, [], 0, [], shared)
  }

  // ── The flush ─────────────────────────────────────────────────────────────

  /** The first pending position at or after `cursor`. */
  function FlushEnd<T>(buffer: seq<Slot<T>>, cursor: nat): (e: nat)
    requires cursor <= |buffer|
    ensures cursor <= e <= |buffer|
    ensures forall k :: cursor <= k < e ==> !buffer[k].Pending?
    ensures e < |buffer| ==> buffer[e].Pending?
    decreases |buffer| - cursor
  {
    if cursor == |buffer| || buffer[cursor].Pending? then cursor else FlushEnd(buffer, cursor + 1)
  }

  /** The values of the ready slots, in order. */
  function Values<T>(slots: seq<Slot<T>>): seq<T> {
    if slots == [] then []
    else Values(slots[..|slots| - 1]) + (match slots[|slots| - 1] case Ready(v) => [v] case _ => [])
  }

  /** The buffer with the slots from `from` up to `to` left `Pending`. */
  function Cleared<T>(buffer: seq<Slot<T>>, from: nat, to: nat): seq<Slot<T>>
    requires from <= to <= |buffer|
  {
    buffer[..from] + seq(to - from, _ => Pending) + buffer[to..]
  }

  /** What `flush_buffer` leaves of the buffer: the slots it passed are `Pending`. */
  function FlushedBuffer<T>(buffer: seq<Slot<T>>, cursor: nat): seq<Slot<T>>
    requires cursor <= |buffer|
  {
    Cleared(buffer, cursor, FlushEnd(buffer, cursor))
  }

  /** What `flush_buffer` delivers. */
  function FlushedValues<T>(buffer: seq<Slot<T>>, cursor: nat): seq<T>
    requires cursor <= |buffer|
  {
    Values(buffer[cursor..FlushEnd(buffer, cursor)])
  }

  /** `flush_buffer`: everything up to the first pending slot is delivered or
      stepped over. */
  function Flush<S, T>(s: State<S, T>): State<S, T>
    requires s.cursor <= |s.buffer|
  {
    s.(buffer := FlushedBuffer(s.buffer, s.cursor),
       cursor := FlushEnd(s.buffer, s.cursor),
       delivered := s.delivered + FlushedValues(s.buffer, s.cursor))
  }

  function SlotFor<T>(result: Option<T>): Slot<T> {
    match result
    case Some(v) => Ready(v)
    case None => Skipped
  }

  /** The slot and the task of `i` take their outcome, then the buffer is flushed. */
  function Resolve<S, T>(s: State<S, T>, i: nat, result: Option<T>): State<S, T>
    requires i < |s.tasks| == |s.buffer| && s.cursor <= |s.buffer|
  {
    Flush(s.(tasks := s.tasks[i := s.tasks[i].(stage := Received(result))],
             buffer := s.buffer[i := SlotFor(result)]))
  }

  // ── Steps ─────────────────────────────────────────────────────────────────

  /** The index facts the loop's own indexing relies on (kept by every step, see
      ExecutorInvariant.StepKeepsInv). */
  predicate Shaped<S, T>(s: State<S, T>) {
    && |s.tasks| == |s.buffer|
    && s.cursor <= |s.buffer|
    && (s.done != [] ==> s.done[0].seqNo < |s.tasks|)
    && ((s.control.Draining? || s.control.RunningExclusive?) ==> s.control.seqNo < |s.tasks|)
  }

  predicate Enabled<S, T>(s: State<S, T>, e: Event<S, T>)
    requires Shaped(s)
  {
    match e
    // A submitter tests the cancellation flag before it takes the lock, so a
    // cancel may fall between the two: only a closed channel stops it.
    case Submit(_) => s.open && !s.control.Exited?
    case CancelFlag => true
    case Close => true
    case AcquireGeneral(i) =>
      && i < |s.tasks| && s.tasks[i].Concurrent() && s.tasks[i].stage.Waiting?
      && !s.tasks[i].general && s.general > 0
    case AcquireGpu(i) =>
      && i < |s.tasks| && s.tasks[i].op.guard == GpuBound && s.tasks[i].stage.Waiting?
      && s.tasks[i].general && !s.tasks[i].gpu && s.gpu > 0
    case CheckAndStart(i) =>
      && i < |s.tasks| && s.tasks[i].Concurrent() && s.tasks[i].stage.Waiting?
      && s.tasks[i].general && (s.tasks[i].op.guard == GpuBound ==> s.tasks[i].gpu)
    case Access(i) =>
      && i < |s.tasks| && s.tasks[i].stage.Running?
      && |s.tasks[i].stage.seen| < |s.tasks[i].op.accesses|
    case Finish(i) =>
      && i < |s.tasks| && s.tasks[i].Concurrent() && s.tasks[i].stage.Running?
      && |s.tasks[i].stage.seen| == |s.tasks[i].op.accesses|
    case Send(i) => i < |s.tasks| && s.tasks[i].stage.Finished?
    case ReleaseGpu(i) => i < |s.tasks| && s.tasks[i].HasSent() && s.tasks[i].gpu
    case ReleaseGeneral(i) => i < |s.tasks| && s.tasks[i].HasSent() && !s.tasks[i].gpu && s.tasks[i].general
    case ReceiveCompletion =>
      && s.done != []
      && (s.control.Selecting? || ((s.control.Draining? || s.control.Closing?) && s.inFlight > 0))
    case ReceiveEnvelope => s.control.Selecting? && s.submitted != []
    case ReceiveClosed => s.control.Selecting? && s.submitted == [] && !s.open
    case StartExclusive => s.control.Draining? && s.inFlight <= 0
    case FinishExclusive =>
      && s.control.RunningExclusive?
      && s.tasks[s.control.seqNo].stage.Running?
      && |s.tasks[s.control.seqNo].stage.seen| == |s.tasks[s.control.seqNo].op.accesses|
    case ExitLoop => s.control.Closing? && s.inFlight <= 0
  }

  function SetTask<S, T>(s: State<S, T>, i: nat, t: Task<S, T>): State<S, T>
    requires i < |s.tasks|
  {
    s.(tasks := s.tasks[i := t])
  }

  /** The loop takes the oldest envelope: dropped after a cancellation, spawned
      when it may run concurrently, otherwise held until the drain is over. */
  function TakeEnvelope<S, T>(s: State<S, T>): State<S, T>
    requires s.submitted != []
  {
    var env := s.submitted[0];
    var s1 := s.(submitted := s.submitted[1..]);
    if s.cancelled then s1.(control := Closing)
    else
      var missing: nat := if |s.buffer| <= env.seqNo then env.seqNo + 1 - |s.buffer| else 0;
      var s2 := s1.(buffer := s.buffer + seq(missing, _ => Pending),
                    tasks := s.tasks + [Task(env.op, Waiting, false, false)]);
      if env.op.guard == Exclusive then s2.(control := Draining(env.seqNo))
      else s2.(inFlight := s.inFlight + 1)
  }

  function Next<S, T>(s: State<S, T>, e: Event<S, T>): State<S, T>
    requires Shaped(s) && Enabled(s, e)
  {
    match e
    case Submit(op) => s.(ops := s.ops + [op], submitted := s.submitted + [Envelope(|s.ops|, op)])
    case CancelFlag => s.(cancelled := true)
    case Close => s.(open := false)
    case AcquireGeneral(i) => SetTask(s, i, s.tasks[i].(general := true)).(general := s.general - 1)
    case AcquireGpu(i) => SetTask(s, i, s.tasks[i].(gpu := true)).(gpu := s.gpu - 1)
    case CheckAndStart(i) =>
      SetTask(s, i, s.tasks[i].(stage := if s.cancelled then Finished(None) else Running([])))
    case Access(i) =>
      var t := s.tasks[i];
      SetTask(s, i, t.(stage := Running(t.stage.seen + [s.shared])))
        .(shared := t.op.accesses[|t.stage.seen|](t.stage.seen, s.shared))
    case Finish(i) =>
      SetTask(s, i, s.tasks[i].(stage := Finished(Some(s.tasks[i].op.output(s.tasks[i].stage.seen)))))
    case Send(i) =>
      var r := s.tasks[i].stage.result;
      SetTask(s, i, s.tasks[i].(stage := Sent(r))).(done := s.done + [Completion(i, r)])
    case ReleaseGpu(i) => SetTask(s, i, s.tasks[i].(gpu := false)).(gpu := s.gpu + 1)
    case ReleaseGeneral(i) => SetTask(s, i, s.tasks[i].(general := false)).(general := s.general + 1)
    case ReceiveCompletion =>
      Resolve(s.(done := s.done[1..], inFlight := s.inFlight - 1), s.done[0].seqNo, s.done[0].result)
    case ReceiveEnvelope => TakeEnvelope(s)
    case ReceiveClosed => s.(control := Closing)
    case StartExclusive =>
      var i := s.control.seqNo;
      if s.cancelled then Resolve(s, i, None).(control := Closing)
      else SetTask(s, i, s.tasks[i].(stage := Running([]))).(control := RunningExclusive(i))
    case FinishExclusive =>
      var t := s.tasks[s.control.seqNo];
      Resolve(s, s.control.seqNo, Some(t.op.output(t.stage.seen))).(control := Selecting)
    case ExitLoop => Flush(s).(control := Exited)
  }

  // ── Runs ──────────────────────────────────────────────────────────────────

  ghost predicate ValidRun<S, T>(s: State<S, T>, es: seq<Event<S, T>>)
    decreases |es|
  {
    es == [] || (Shaped(s) && Enabled(s, es[0]) && ValidRun(Next(s, es[0]), es[1..]))
  }

  ghost function After<S, T>(s: State<S, T>, es: seq<Event<S, T>>): State<S, T>
    requires ValidRun(s, es)
    decreases |es|
  {
    if es == [] then s else After(Next(s, es[0]), es[1..])
  }
}
