/** The executor in the form of its source: a handle whose methods submit, close
    and cancel, and a loop that updates its buffer, cursor and counter in place.
    Every method is proved to take exactly the steps of ExecutorModel, so that all
    that is proved about runs of that model holds of this loop. */
module ExecutorLoop {
  import opened Wrappers
  import opened ExecutorModel
  import opened ExecutorInvariant
  import opened ExecutorSafety
  import opened ExecutorSerial
  import opened ExecutorProgress

  lemma {:induction false} RunSnoc<S, T>(s: State<S, T>, es: seq<Event<S, T>>, e: Event<S, T>)
    requires ValidRun(s, es) && Shaped(After(s, es)) && Enabled(After(s, es), e)
    ensures ValidRun(s, es + [e])
    ensures After(s, es + [e]) == Next(After(s, es), e)
    decreases |es|
  {
    if es == [] {
      assert (es + [e])[1..] == [];
    } else {
      assert (es + [e])[1..] == es[1..] + [e];
      RunSnoc(Next(s, es[0]), es[1..], e);
    }
  }

  lemma {:induction false} NothingFlushed<T>(buffer: seq<Slot<T>>, from: nat)
    requires from <= |buffer|
    ensures Cleared(buffer, from, from) == buffer && Values(buffer[from..from]) == []
    ensures forall to :: from <= to <= |buffer| ==> |Cleared(buffer, from, to)| == |buffer|
  {}

  /** One more slot passed by the flush. */
  lemma {:induction false} FlushStep<T>(buffer: seq<Slot<T>>, from: nat, k: nat)
    requires from <= k < |buffer|
    ensures Cleared(buffer, from, k)[k] == buffer[k]
    ensures Cleared(buffer, from, k)[k := Pending] == Cleared(buffer, from, k + 1)
    ensures buffer[k].Pending? ==> Cleared(buffer, from, k)[k := Pending] == Cleared(buffer, from, k)
    ensures Values(buffer[from..k + 1]) ==
              Values(buffer[from..k]) + (match buffer[k] case Ready(v) => [v] case _ => [])
  {
    assert buffer[from..k + 1][..k - from] == buffer[from..k];
  }

  /** What the loop's code relies on in every state a run reaches. */
  lemma {:induction false} ReachedFacts<S, T>(maxConcurrent: nat, shared: S, es: seq<Event<S, T>>)
    requires ValidRun(Init(maxConcurrent, shared), es)
    ensures var s := Reached(maxConcurrent, shared, es);
            && Shaped(s) && s.inFlight >= 0
            && (s.control.RunningExclusive? ==>
                  var t := s.tasks[s.control.seqNo];
                  t.stage.Running? && |t.stage.seen| <= |t.op.accesses|)
  {
    ReachedInv(maxConcurrent, shared, es);
    var s := Reached(maxConcurrent, shared, es);
    if s.control.RunningExclusive? {
      assert TaskOk(s.tasks[s.control.seqNo]);
    }
  }

  /** Each step of the loop and of the tasks brings the run closer to its end. */
  lemma {:induction false} ReachedStepDecreases<S, T>(maxConcurrent: nat, shared: S, es: seq<Event<S, T>>, e: Event<S, T>)
    requires ValidRun(Init(maxConcurrent, shared), es)
    requires var s := Reached(maxConcurrent, shared, es); Shaped(s) && Enabled(s, e) && !e.External()
    ensures var s := Reached(maxConcurrent, shared, es); Remaining(Next(s, e)) < Remaining(s)
  {
    ReachedInv(maxConcurrent, shared, es);
    StepDecreases(Reached(maxConcurrent, shared, es), e);
  }

  /** Callers and tasks leave the loop's position and counter alone. */
  lemma {:induction false} OthersLeaveLoop<S, T>(s: State<S, T>, e: Event<S, T>)
    requires Shaped(s) && Enabled(s, e) && !e.OfLoop()
    ensures var n := Next(s, e);
            && n.control == s.control && n.inFlight == s.inFlight
            && n.buffer == s.buffer && n.cursor == s.cursor && n.delivered == s.delivered
  {}

  // ── What callers do ───────────────────────────────────────────────────────

  /** The callers' steps of a run. */
  function Externals<S, T>(es: seq<Event<S, T>>): seq<Event<S, T>> {
    if es == [] then []
    else Externals(es[..|es| - 1]) + (if es[|es| - 1].External() then [es[|es| - 1]] else [])
  }

  predicate HasClose<S, T>(es: seq<Event<S, T>>) {
    exists i :: 0 <= i < |es| && es[i].Close?
  }

  /** Of everything callers attempt: all but the submissions after a close. */
  function Heard<S, T>(es: seq<Event<S, T>>): seq<Event<S, T>> {
    if es == [] then []
    else
      var most, last := Heard(es[..|es| - 1]), es[|es| - 1];
      if last.External() && !(last.Submit? && HasClose(most)) then most + [last] else most
  }

  /** The operations submitted, in order. */
  function OpsOf<S, T>(es: seq<Event<S, T>>): seq<Op<S, T>> {
    if es == [] then []
    else OpsOf(es[..|es| - 1]) + (if es[|es| - 1].Submit? then [es[|es| - 1].op] else [])
  }

  function Flat<S, T>(script: seq<seq<Event<S, T>>>): seq<Event<S, T>> {
    if script == [] then [] else script[0] + Flat(script[1..])
  }

  lemma {:induction false} HeardOneMore<S, T>(es: seq<Event<S, T>>, e: Event<S, T>)
    ensures Heard(es + [e]) == if e.External() && !(e.Submit? && HasClose(Heard(es))) then Heard(es) + [e] else Heard(es)
  {
    assert (es + [e])[..|es|] == es;
  }

  lemma {:induction false} ExternalsOneMore<S, T>(es: seq<Event<S, T>>, e: Event<S, T>)
    ensures Externals(es + [e]) == if e.External() then Externals(es) + [e] else Externals(es)
  {
    assert (es + [e])[..|es|] == es;
    assert Externals(es) + [] == Externals(es);
  }

  lemma {:induction false} OpsOneMore<S, T>(es: seq<Event<S, T>>, e: Event<S, T>)
    ensures OpsOf(es + [e]) == if e.Submit? then OpsOf(es) + [e.op] else OpsOf(es)
    ensures HasClose(es + [e]) <==> HasClose(es) || e.Close?
  {
    assert (es + [e])[..|es|] == es;
    assert OpsOf(es) + [] == OpsOf(es);
    if HasClose(es) {
      var i :| 0 <= i < |es| && es[i].Close?;
      assert (es + [e])[i] == es[i];
    }
    if e.Close? {
      assert (es + [e])[|es|] == e;
    }
  }

  /** The accepted operations and the open channel, from the callers' steps alone. */
  lemma {:induction false} HandleFromExternals<S, T>(es: seq<Event<S, T>>)
    ensures OpsOf(Externals(es)) == OpsOf(es) && (HasClose(Externals(es)) <==> HasClose(es))
    decreases |es|
  {
    if es != [] {
      var most, last := es[..|es| - 1], es[|es| - 1];
      assert es == most + [last];
      HandleFromExternals(most);
      ExternalsOneMore(most, last);
      OpsOneMore(most, last);
      OpsOneMore(Externals(most), last);
    }
  }

  lemma {:induction false} StepHandle<S, T>(s: State<S, T>, e: Event<S, T>)
    requires Shaped(s) && Enabled(s, e)
    ensures Next(s, e).ops == (if e.Submit? then s.ops + [e.op] else s.ops)
    ensures Next(s, e).open == (s.open && !e.Close?)
  {}

  lemma {:induction false} RunInit<S, T>(s: State<S, T>, es: seq<Event<S, T>>)
    requires es != [] && ValidRun(s, es)
    ensures var most, last := es[..|es| - 1], es[|es| - 1];
            && ValidRun(s, most) && Shaped(After(s, most)) && Enabled(After(s, most), last)
            && After(s, es) == Next(After(s, most), last)
    decreases |es|
  {
    if |es| > 1 {
      RunInit(Next(s, es[0]), es[1..]);
      assert es[1..][..|es| - 2] == es[..|es| - 1][1..];
    }
  }

  lemma {:induction false} HandleFromTrace<S, T>(s: State<S, T>, es: seq<Event<S, T>>)
    requires ValidRun(s, es) && s.ops == [] && s.open
    ensures After(s, es).ops == OpsOf(es) && (After(s, es).open <==> !HasClose(es))
    decreases |es|
  {
    if es != [] {
      var most, last := es[..|es| - 1], es[|es| - 1];
      RunInit(s, es);
      HandleFromTrace(s, most);
      assert es == most + [last];
      OpsOneMore(most, last);
      StepHandle(After(s, most), last);
      hide After, OpsOf, HasClose, Next, Enabled, Shaped, ValidRun;
    }
  }

  /** What comes after a close adds no operation. */
  lemma {:induction false} NothingAfterClose<S, T>(es: seq<Event<S, T>>, more: seq<Event<S, T>>)
    requires HasClose(Heard(es))
    ensures OpsOf(Heard(es + more)) == OpsOf(Heard(es)) && HasClose(Heard(es + more))
    decreases |more|
  {
    if more == [] {
      assert es + more == es;
    } else {
      var most, last := more[..|more| - 1], more[|more| - 1];
      NothingAfterClose(es, most);
      assert es + more == (es + most) + [last];
      HeardOneMore(es + most, last);
      OpsOneMore(Heard(es + most), last);
    }
  }

  /** No step of the loop's own is possible: it waits for a task or a caller. */
  predicate LoopWaits<S, T>(s: State<S, T>) {
    && Shaped(s) && !s.control.RunningExclusive? && !s.control.Exited?
    && !Enabled(s, ReceiveCompletion) && !Enabled(s, ReceiveEnvelope) && !Enabled(s, ReceiveClosed)
    && !Enabled(s, StartExclusive) && !Enabled(s, FinishExclusive) && !Enabled(s, ExitLoop)
  }

  lemma {:induction false} DrainWaits<S, T>(s: State<S, T>)
    requires Shaped(s) && (s.control.Draining? || s.control.Closing?) && s.done == [] && s.inFlight > 0
    ensures LoopWaits(s)
  {}

  lemma {:induction false} SelectWaits<S, T>(s: State<S, T>)
    requires Shaped(s) && s.control.Selecting? && s.done == [] && s.submitted == [] && s.open
    ensures LoopWaits(s)
  {}

  class StreamingToolExecutor<S(!new), T(!new)> {
    // The loop's own variables and the channel it delivers to.
    var buffer: seq<Slot<T>>
    var cursor: nat
    var inFlight: int
    var delivered: seq<T>

    /** Everything else: the handle, the tasks, the semaphores, the channels. */
    var rest: State<S, T>

    /** What callers and tasks do at each point where the loop gives way to them. */
    var script: seq<seq<Event<S, T>>>

    ghost const maxConcurrent: nat
    ghost const initial: S
    ghost var trace: seq<Event<S, T>>

    /** Everything callers and tasks have attempted so far. */
    ghost var offered: seq<Event<S, T>>

    function Abs(): State<S, T>
      reads this
    {
      rest.(buffer := buffer, cursor := cursor, inFlight := inFlight, delivered := delivered)
    }

    /** The object is where the recorded run of the model has led. */
    ghost predicate Valid()
      reads this
    {
      ValidRun(Init(maxConcurrent, initial), trace) && Abs() == Reached(maxConcurrent, initial, trace)
    }

    /** Of what callers attempted, the run holds all but the submissions after a close. */
    ghost predicate Fed()
      reads this
    {
      Externals(trace) == Heard(offered)
    }

    /** What has been attempted, and what is still in the script. */
    ghost function Ahead(): seq<Event<S, T>>
      reads this
    {
      offered + Flat(script)
    }

    constructor (maxConcurrent: nat, initial: S, schedule: seq<seq<Event<S, T>>>)
      ensures Valid() && trace == [] && script == schedule && Fed() && Ahead() == Flat(schedule)
      ensures this.maxConcurrent == maxConcurrent && this.initial == initial
      ensures Abs() == Init(maxConcurrent, initial)
    {
      this.maxConcurrent, this.initial := maxConcurrent, initial;
      rest := Init(maxConcurrent, initial);
      buffer, cursor, inFlight, delivered := [], 0, 0, [];
      script := schedule;
      trace, offered := [], [];
    }

    /** Records a step just taken. */
    ghost method Record(before: State<S, T>, e: Event<S, T>)
      requires ValidRun(Init(maxConcurrent, initial), trace) && before == Reached(maxConcurrent, initial, trace)
      requires Shaped(before) && Enabled(before, e) && Abs() == Next(before, e)
      modifies this`trace
      ensures Valid() && trace == old(trace) + [e]
    {
      RunSnoc(Init(maxConcurrent, initial), trace, e);
      trace := trace + [e];
    }

    // ── The handle ────────────────────────────────────────────────────────────

    /** Refused exactly when cancelled, closed, or the loop is gone; otherwise the
        operation joins the channel under the next number. */
    method Submit(op: Op<S, T>) returns (accepted: bool)
      requires Valid()
      modifies this`rest, this`trace
      ensures Valid()
      ensures accepted <==> !old(rest.cancelled) && old(rest.open) && !old(rest.control.Exited?)
      ensures accepted ==> trace == old(trace) + [Event.Submit(op)]
      ensures accepted ==>
                rest == old(rest).(ops := old(rest.ops) + [op],
                                   submitted := old(rest.submitted) + [Envelope(|old(rest.ops)|, op)])
      ensures !accepted ==> rest == old(rest) && trace == old(trace)
    {
      ReachedFacts(maxConcurrent, initial, trace);
      ghost var before := Abs();
      if rest.cancelled {
        return false;
      }
      if rest.open && !rest.control.Exited? {
        var seqNo := |rest.ops|;
        rest := rest.(ops := rest.ops + [op], submitted := rest.submitted + [Envelope(seqNo, op)]);
        Record(before, Event.Submit(op));
        return true;
      }
      return false;
    }

    /** Closing refuses every later submission and loses none already made. */
    method CloseChannel()
      requires Valid()
      modifies this`rest, this`trace
      ensures Valid() && rest == old(rest).(open := false) && trace == old(trace) + [Close]
    {
      ReachedFacts(maxConcurrent, initial, trace);
      ghost var before := Abs();
      rest := rest.(open := false);
      Record(before, Close);
    }

    /** Cancelling raises the flag first and closes the channel second. */
    method Cancel()
      requires Valid()
      modifies this`rest, this`trace
      ensures Valid() && rest == old(rest).(cancelled := true, open := false)
      ensures trace == old(trace) + [CancelFlag, Close]
    {
      ReachedFacts(maxConcurrent, initial, trace);
      ghost var before := Abs();
      rest := rest.(cancelled := true);
      Record(before, CancelFlag);
      CloseChannel();
      assert trace == old(trace) + [CancelFlag, Close];
    }

    // ── The flush ─────────────────────────────────────────────────────────────

    /** Delivers the ready slots at the cursor, steps over the skipped ones, and
        stops at the first pending slot or at the end. */
    method FlushBuffer()
      requires cursor <= |buffer|
      modifies this`buffer, this`cursor, this`delivered
      ensures buffer == FlushedBuffer(old(buffer), old(cursor))
      ensures cursor == FlushEnd(old(buffer), old(cursor))
      ensures delivered == old(delivered) + FlushedValues(old(buffer), old(cursor))
    {
      hide Cleared, Values;
      ghost var buffer0, from := buffer, cursor;
      NothingFlushed(buffer0, from);
      while cursor < |buffer|
        invariant from <= cursor <= |buffer| == |buffer0|
        invariant buffer == Cleared(buffer0, from, cursor)
        invariant delivered == old(delivered) + Values(buffer0[from..cursor])
        invariant FlushEnd(buffer0, from) == FlushEnd(buffer0, cursor)
        decreases |buffer| - cursor
      {
        FlushStep(buffer0, from, cursor);
        var slot := buffer[cursor];
        buffer := buffer[cursor := Pending];
        match slot {
          case Ready(val) =>
            delivered := delivered + [val];
            cursor := cursor + 1;
          case Skipped =>
            cursor := cursor + 1;
          case Pending =>
            break;
        }
      }
    }

    /** The slot of `i` takes its outcome and the buffer is flushed. */
    method ResolveSlot(i: nat, result: Option<T>)
      requires i < |rest.tasks| == |buffer| && cursor <= |buffer|
      modifies this`rest, this`buffer, this`cursor, this`delivered
      ensures Abs() == Resolve(old(Abs()), i, result)
    {
      rest := rest.(tasks := rest.tasks[i := rest.tasks[i].(stage := Received(result))]);
      match result {
        case Some(output) => buffer := buffer[i := Ready(output)];
        case None => buffer := buffer[i := Skipped];
      }
      FlushBuffer();
    }

    // ── The other threads ─────────────────────────────────────────────────────

    /** The loop gives way: callers and tasks take the steps the schedule has for
        this point, as far as they are possible. */
    method GiveWay()
      requires Valid() && Fed() && script != [] && !rest.control.Exited?
      modifies this`rest, this`script, this`trace, this`offered
      ensures Valid() && Fed() && old(trace) <= trace && script == old(script)[1..]
      ensures rest.control == old(rest.control) && Ahead() == old(Ahead())
    {
      hide Heard, Externals;
      var burst := script[0];
      script := script[1..];
      for k := 0 to |burst|
        invariant Valid() && Fed() && old(trace) <= trace && script == old(script)[1..]
        invariant rest.control == old(rest.control) && offered == old(offered) + burst[..k]
      {
        TakeTurn(burst[k]);
        assert burst[..k + 1] == burst[..k] + [burst[k]];
      }
      assert burst[..|burst|] == burst;
      assert old(offered) + (burst + Flat(script)) == (old(offered) + burst) + Flat(script);
    }

    /** One step a caller or a task attempts: taken if it is possible. */
    method TakeTurn(e: Event<S, T>)
      requires Valid() && Fed() && !rest.control.Exited?
      modifies this`rest, this`trace, this`offered
      ensures Valid() && Fed() && old(trace) <= trace && offered == old(offered) + [e]
      ensures rest.control == old(rest.control)
    {
      hide Heard, Externals, HasClose, OpsOf;
      var s := Abs();
      ReachedFacts(maxConcurrent, initial, trace);
      HandleFromTrace(Init(maxConcurrent, initial), trace);
      HandleFromExternals(trace);
      HeardOneMore(offered, e);
      ExternalsOneMore(trace, e);
      offered := offered + [e];
      if !e.OfLoop() && Enabled(s, e) {
        OthersLeaveLoop(s, e);
        rest := Next(s, e);
        Record(s, e);
      }
    }

    // ── The loop ──────────────────────────────────────────────────────────────

    /** One completion taken off the channel. */
    method TakeCompletion()
      requires Valid() && rest.done != []
      requires rest.control.Selecting? || ((rest.control.Draining? || rest.control.Closing?) && inFlight > 0)
      modifies this`rest, this`buffer, this`cursor, this`inFlight, this`delivered, this`trace
      ensures Valid() && trace == old(trace) + [ReceiveCompletion]
      ensures rest.control == old(rest.control) && inFlight == old(inFlight) - 1
      ensures Remaining(Abs()) < Remaining(old(Abs()))
    {
      ghost var before := Abs();
      ReachedFacts(maxConcurrent, initial, trace);
      ReachedStepDecreases(maxConcurrent, initial, trace, ReceiveCompletion);
      var c := rest.done[0];
      rest := rest.(done := rest.done[1..]);
      inFlight := inFlight - 1;
      ResolveSlot(c.seqNo, c.result);
      Record(before, ReceiveCompletion);
    }

    /** Completions are read until nothing is in flight; `false` when the schedule
        ends first, with the loop still waiting. */
    method Drain() returns (drained: bool)
      requires Valid() && Fed() && (rest.control.Draining? || rest.control.Closing?)
      modifies this
      ensures Valid() && Fed() && old(trace) <= trace && rest.control == old(rest.control) && Ahead() == old(Ahead())
      ensures drained ==> inFlight <= 0
      ensures !drained ==> script == [] && LoopWaits(Abs())
      ensures |script| < |old(script)| || (script == old(script) && Remaining(Abs()) <= Remaining(old(Abs())))
    {
      hide Heard, Externals, Remaining, Reached, LoopWaits, Flat, Next, Enabled;
      while inFlight > 0
        invariant Valid() && Fed() && old(trace) <= trace && rest.control == old(rest.control) && Ahead() == old(Ahead())
        invariant |script| < |old(script)| || (script == old(script) && Remaining(Abs()) <= Remaining(old(Abs())))
        decreases |script|, inFlight
      {
        if rest.done != [] {
          ExternalsOneMore(trace, ReceiveCompletion);
          TakeCompletion();
        } else if script != [] {
          GiveWay();
        } else {
          ReachedFacts(maxConcurrent, initial, trace);
          DrainWaits(Abs());
          return false;
        }
      }
      return true;
    }

    method ReserveSlot(seqNo: nat)
      modifies this`buffer
      ensures var missing: nat := if |old(buffer)| <= seqNo then seqNo + 1 - |old(buffer)| else 0;
              buffer == old(buffer) + seq(missing, _ => Pending)
    {
      ghost var n := |buffer|;
      while |buffer| <= seqNo
        invariant n <= |buffer|
        invariant buffer == old(buffer) + seq(|buffer| - n, _ => Pending)
        invariant |buffer| == n || |buffer| <= seqNo + 1
      {
        buffer := buffer + [Pending];
      }
    }

    /** An envelope taken off the channel: its slot is reserved and the operation
        is spawned, or held for the drain; after a cancellation it is dropped. */
    method TakeSubmission()
      requires Valid() && rest.control.Selecting? && rest.submitted != []
      modifies this`rest, this`buffer, this`inFlight, this`trace
      ensures Valid() && trace == old(trace) + [ReceiveEnvelope]
      ensures !rest.control.RunningExclusive? && !rest.control.Exited?
      ensures Remaining(Abs()) < Remaining(old(Abs()))
    {
      ghost var before := Abs();
      ReachedFacts(maxConcurrent, initial, trace);
      ReachedStepDecreases(maxConcurrent, initial, trace, ReceiveEnvelope);
      var envelope := rest.submitted[0];
      rest := rest.(submitted := rest.submitted[1..]);
      if rest.cancelled {
        rest := rest.(control := Closing);
      } else {
        Accept(envelope);
      }
      Record(before, ReceiveEnvelope);
    }

    method Accept(envelope: Envelope<S, T>)
      modifies this`rest, this`buffer, this`inFlight
      ensures var missing: nat := if |old(buffer)| <= envelope.seqNo then envelope.seqNo + 1 - |old(buffer)| else 0;
              buffer == old(buffer) + seq(missing, _ => Pending)
      ensures rest == old(rest).(tasks := old(rest.tasks) + [Task(envelope.op, Waiting, false, false)],
                                 control := if envelope.op.guard == Exclusive then Draining(envelope.seqNo)
                                            else old(rest.control))
      ensures inFlight == if envelope.op.guard == Exclusive then old(inFlight) else old(inFlight) + 1
    {
      ReserveSlot(envelope.seqNo);
      rest := rest.(tasks := rest.tasks + [Task(envelope.op, Waiting, false, false)]);
      if envelope.op.guard == Exclusive {
        rest := rest.(control := Draining(envelope.seqNo));
      } else {
        inFlight := inFlight + 1;
      }
    }

    /** The exclusive operation the loop holds: skipped if a cancellation arrived
        during the drain, otherwise run to its end on the loop's own task. */
    method HandleExclusive()
      requires Valid() && rest.control.Draining? && inFlight <= 0
      modifies this`rest, this`buffer, this`cursor, this`delivered, this`trace
      ensures Valid() && old(trace) <= trace && Externals(trace) == Externals(old(trace))
      ensures rest.control == if old(rest.cancelled) then Closing else Selecting
      ensures Remaining(Abs()) < Remaining(old(Abs()))
    {
      hide Externals, Remaining, Next, Enabled, Reached;
      var i := rest.control.seqNo;
      ExternalsOneMore(trace, StartExclusive);
      StartOrSkip();
      if !rest.cancelled {
        RunAccesses(i);
        ExternalsOneMore(trace, FinishExclusive);
        FinishRun(i);
      }
    }

    /** The flag is looked at once more after the drain. */
    method StartOrSkip()
      requires Valid() && rest.control.Draining? && inFlight <= 0
      modifies this`rest, this`buffer, this`cursor, this`delivered, this`trace
      ensures Valid() && trace == old(trace) + [StartExclusive] && rest.cancelled == old(rest.cancelled)
      ensures rest.control == if rest.cancelled then Closing else RunningExclusive(old(rest.control).seqNo)
      ensures Remaining(Abs()) < Remaining(old(Abs()))
    {
      ghost var before := Abs();
      ReachedFacts(maxConcurrent, initial, trace);
      ReachedStepDecreases(maxConcurrent, initial, trace, StartExclusive);
      hide Remaining, FlushEnd, FlushedBuffer, FlushedValues;
      var i := rest.control.seqNo;
      if rest.cancelled {
        ResolveSlot(i, None);
        rest := rest.(control := Closing);
      } else {
        rest := rest.(tasks := rest.tasks[i := rest.tasks[i].(stage := Running([]))],
                      control := RunningExclusive(i));
      }
      Record(before, StartExclusive);
    }

    method RunAccesses(i: nat)
      requires Valid() && rest.control == RunningExclusive(i)
      modifies this`rest, this`trace
      ensures Valid() && old(trace) <= trace && rest.control == RunningExclusive(i) && i < |rest.tasks|
      ensures Externals(trace) == Externals(old(trace))
      ensures rest.tasks[i].stage.Running? && |rest.tasks[i].stage.seen| == |rest.tasks[i].op.accesses|
      ensures Remaining(Abs()) <= Remaining(old(Abs()))
    {
      hide Externals;
      ReachedFacts(maxConcurrent, initial, trace);
      while |rest.tasks[i].stage.seen| < |rest.tasks[i].op.accesses|
        invariant Valid() && old(trace) <= trace && Externals(trace) == Externals(old(trace))
        invariant rest.control == RunningExclusive(i) && i < |rest.tasks| && rest.tasks[i].stage.Running?
        invariant |rest.tasks[i].stage.seen| <= |rest.tasks[i].op.accesses|
        invariant Remaining(Abs()) <= Remaining(old(Abs()))
        decreases Remaining(Abs())
      {
        ghost var before := Abs();
        ReachedFacts(maxConcurrent, initial, trace);
        ReachedStepDecreases(maxConcurrent, initial, trace, Access(i));
        ExternalsOneMore(trace, Access(i));
        var t := rest.tasks[i];
        rest := rest.(tasks := rest.tasks[i := t.(stage := Running(t.stage.seen + [rest.shared]))],
                      shared := t.op.accesses[|t.stage.seen|](t.stage.seen, rest.shared));
        Record(before, Access(i));
      }
    }

    method FinishRun(i: nat)
      requires Valid() && rest.control == RunningExclusive(i) && i < |rest.tasks|
      requires rest.tasks[i].stage.Running? && |rest.tasks[i].stage.seen| == |rest.tasks[i].op.accesses|
      modifies this`rest, this`buffer, this`cursor, this`delivered, this`trace
      ensures Valid() && trace == old(trace) + [FinishExclusive] && rest.control.Selecting?
      ensures Remaining(Abs()) < Remaining(old(Abs()))
    {
      ghost var before := Abs();
      ReachedFacts(maxConcurrent, initial, trace);
      ReachedStepDecreases(maxConcurrent, initial, trace, FinishExclusive);
      var output := rest.tasks[i].op.output(rest.tasks[i].stage.seen);
      ResolveSlot(i, Some(output));
      rest := rest.(control := Selecting);
      Record(before, FinishExclusive);
    }

    /** `run_executor_loop`. The loop prefers completions, takes submissions when
        there is none, and leaves when the channel is closed or a cancellation is
        seen; then it drains and flushes. It returns `false` when the schedule of
        the other threads ends while it still waits for them. */
    method RunExecutorLoop() returns (exited: bool)
      requires Valid() && Fed() && rest.control.Selecting?
      modifies this
      ensures Valid() && Fed() && old(trace) <= trace && Ahead() == old(Ahead())
      ensures exited ==> rest.control.Exited?
      ensures !exited ==> script == [] && LoopWaits(Abs())
    {
      hide Heard, Externals, LoopWaits;
      while rest.control.Selecting?
        invariant Valid() && Fed() && old(trace) <= trace && Ahead() == old(Ahead())
        invariant rest.control.Selecting? || rest.control.Closing?
        decreases |script|, Remaining(Abs())
      {
        if script != [] {
          GiveWay();
        }
        var goOn := Select();
        if !goOn {
          return false;
        }
      }
      exited := Leave();
    }

    /** One turn of the selection: a completion before a submission before the close of
        the channel. `false` when there is none of these and the schedule has ended. */
    method Select() returns (goOn: bool)
      requires Valid() && Fed() && rest.control.Selecting?
      modifies this
      ensures Valid() && Fed() && old(trace) <= trace && Ahead() == old(Ahead())
      ensures goOn ==> rest.control.Selecting? || rest.control.Closing?
      ensures !goOn ==> script == [] && LoopWaits(Abs())
      ensures |script| < |old(script)| || (script == old(script) && (Remaining(Abs()) < Remaining(old(Abs())) || !goOn || script != []))
    {
      hide Heard, Externals, Remaining, Reached, LoopWaits, Flat, Next, Enabled;
      if rest.done != [] {
        ExternalsOneMore(trace, ReceiveCompletion);
        TakeCompletion();
      } else if rest.submitted != [] {
        goOn := HandleSubmission();
        return;
      } else if !rest.open {
        ExternalsOneMore(trace, ReceiveClosed);
        SeeClosed();
      } else if script == [] {
        ReachedFacts(maxConcurrent, initial, trace);
        SelectWaits(Abs());
        return false;
      }
      goOn := true;
    }

    /** A submission taken and, when exclusive, drained for and run. */
    method HandleSubmission() returns (goOn: bool)
      requires Valid() && Fed() && rest.control.Selecting? && rest.submitted != []
      modifies this
      ensures Valid() && Fed() && old(trace) <= trace && Ahead() == old(Ahead())
      ensures goOn ==> rest.control.Selecting? || rest.control.Closing?
      ensures !goOn ==> script == [] && LoopWaits(Abs())
      ensures |script| < |old(script)| || (script == old(script) && Remaining(Abs()) < Remaining(old(Abs())))
    {
      hide Heard, Externals, LoopWaits;
      ExternalsOneMore(trace, ReceiveEnvelope);
      TakeSubmission();
      if rest.control.Draining? {
        var drained := Drain();
        if !drained {
          return false;
        }
        HandleExclusive();
      }
      return true;
    }

    method SeeClosed()
      requires Valid() && rest.control.Selecting? && rest.submitted == [] && !rest.open
      modifies this`rest, this`trace
      ensures Valid() && trace == old(trace) + [ReceiveClosed] && rest.control.Closing?
      ensures Remaining(Abs()) < Remaining(old(Abs()))
    {
      ghost var before := Abs();
      ReachedFacts(maxConcurrent, initial, trace);
      ReachedStepDecreases(maxConcurrent, initial, trace, ReceiveClosed);
      rest := rest.(control := Closing);
      Record(before, ReceiveClosed);
    }

    /** After the loop: the rest is drained, then the last flush. */
    method Leave() returns (exited: bool)
      requires Valid() && Fed() && rest.control.Closing?
      modifies this
      ensures Valid() && Fed() && old(trace) <= trace && Ahead() == old(Ahead())
      ensures exited ==> rest.control.Exited?
      ensures !exited ==> script == [] && LoopWaits(Abs())
    {
      hide Heard, Externals, LoopWaits;
      var drained := Drain();
      if !drained {
        return false;
      }
      ghost var before := Abs();
      ReachedFacts(maxConcurrent, initial, trace);
      FlushBuffer();
      rest := rest.(control := Exited);
      ExternalsOneMore(trace, ExitLoop);
      Record(before, ExitLoop);
      return true;
    }
  }

  /** A whole life of the executor, for any schedule of its callers and tasks. When the
      loop has exited without a cancellation, the operations it ran are those the
      schedule submits up to its close, and it has delivered the value of each, in
      order, as if all had run one by one. When it has not, the schedule is over and
      the loop can do nothing but wait. */
  method RunToExit<S(!new), T(!new)>(maxConcurrent: nat, initial: S, schedule: seq<seq<Event<S, T>>>)
    returns (ops: seq<Op<S, T>>, delivered: seq<T>, cancelled: bool, exited: bool, left: State<S, T>)
    ensures !exited ==> LoopWaits(left) && exists es ::
              && ValidRun(Init(maxConcurrent, initial), es)
              && left == Reached(maxConcurrent, initial, es) && Externals(es) == Heard(Flat(schedule))
    ensures exited && !cancelled ==> ops == OpsOf(Heard(Flat(schedule))) && |delivered| == |ops|
    ensures exited && !cancelled && WellClassified(ops) ==>
              forall i :: 0 <= i < |ops| ==> delivered[i] == SerialOutput(ops, initial, i)
  {
    hide Heard, Externals, OpsOf, HasClose, LoopWaits;
    var executor := new StreamingToolExecutor(maxConcurrent, initial, schedule);
    exited := executor.RunExecutorLoop();
    ops, delivered, cancelled := executor.rest.ops, executor.delivered, executor.rest.cancelled;
    left := executor.Abs();
    ghost var trace := executor.trace;
    assert !exited ==> executor.offered + [] == executor.offered;
    if exited && !cancelled {
      ExitedIsClosed(maxConcurrent, initial, trace);
      HandleFromTrace(Init(maxConcurrent, initial), trace);
      HandleFromExternals(trace);
      NothingAfterClose(executor.offered, Flat(executor.script));
      DeliveredInOrderExactlyOnce(maxConcurrent, initial, trace);
      if WellClassified(ops) {
        Serializable(maxConcurrent, initial, trace);
      }
    }
  }

  /** Without a cancellation the loop leaves only by a closed channel. */
  lemma {:induction false} ExitedIsClosed<S, T>(maxConcurrent: nat, initial: S, es: seq<Event<S, T>>)
    requires ValidRun(Init(maxConcurrent, initial), es)
    ensures var s := Reached(maxConcurrent, initial, es); s.control.Exited? && !s.cancelled ==> !s.open
  {
    ReachedInv(maxConcurrent, initial, es);
  }
}
