/** The executor never deadlocks, although a GpuBound task keeps its general
    permit while it waits for the GPU and the drain before an Exclusive operation
    blocks the loop; and once the channel is closed every run of it is finite. */
module ExecutorProgress {
  import opened Wrappers
  import opened ExecutorModel
  import opened ExecutorInvariant
  import opened ExecutorSafety

  /** Nothing is left to do until a caller does something: every operation taken
      is resolved, every permit is back, and the loop has exited or waits on an
      open, empty channel. */
  ghost predicate Quiescent<S, T>(s: State<S, T>) {
    && (s.control.Exited? || (s.control.Selecting? && s.open && s.submitted == []))
    && (forall i :: 0 <= i < |s.tasks| ==>
          s.tasks[i].stage.Received? && !s.tasks[i].general && !s.tasks[i].gpu)
  }

  ghost predicate CanMove<S(!new), T(!new)>(s: State<S, T>)
    requires Shaped(s)
  {
    exists e: Event<S, T> :: !e.External() && Enabled(s, e)
  }

  // ── Deadlock freedom ──────────────────────────────────────────────────────

  /** A task that has begun, or that has reported but still holds a permit, moves. */
  ghost predicate Busy<S, T>(t: Task<S, T>) {
    t.stage.Running? || t.stage.Finished? || (t.HasSent() && (t.general || t.gpu))
  }

  lemma {:induction false} BusyMoves<S(!new), T(!new)>(s: State<S, T>, i: nat)
    requires Inv(s) && Shaped(s) && i < |s.tasks| && Busy(s.tasks[i])
    ensures CanMove(s)
  {
    var t := s.tasks[i];
    assert TaskOk(t);
    if t.stage.Running? {
      if |t.stage.seen| < |t.op.accesses| {
        assert Enabled(s, Access(i));
      } else if t.Concurrent() {
        assert Enabled(s, Finish(i));
      } else {
        assert Enabled(s, FinishExclusive);
      }
    } else if t.stage.Finished? {
      assert Enabled(s, Send(i));
    } else if t.gpu {
      assert Enabled(s, ReleaseGpu(i));
    } else {
      assert Enabled(s, ReleaseGeneral(i));
    }
  }

  /** A holder of the GPU permit that is not busy can start. */
  lemma {:induction false} GpuHolderMoves<S(!new), T(!new)>(s: State<S, T>)
    requires Inv(s) && Shaped(s) && s.gpu == 0
    ensures CanMove(s)
  {
    SumWitness(s.tasks, HeldGpu);
    var i :| 0 <= i < |s.tasks| && Weight(s.tasks[i], HeldGpu) > 0;
    assert TaskOk(s.tasks[i]);
    if s.tasks[i].stage.Waiting? {
      assert Enabled(s, CheckAndStart(i));
    } else {
      BusyMoves(s, i);
    }
  }

  /** Nobody waits forever behind a task that holds a general permit: it starts,
      takes the free GPU permit, or waits for a holder of the GPU that moves. */
  lemma {:induction false} GeneralHolderMoves<S(!new), T(!new)>(s: State<S, T>, i: nat)
    requires Inv(s) && Shaped(s) && i < |s.tasks| && s.tasks[i].general
    ensures CanMove(s)
  {
    assert TaskOk(s.tasks[i]);
    if !s.tasks[i].stage.Waiting? {
      BusyMoves(s, i);
    } else if s.tasks[i].op.guard == GpuBound && !s.tasks[i].gpu {
      if s.gpu == 0 {
        GpuHolderMoves(s);
      } else {
        assert Enabled(s, AcquireGpu(i));
      }
    } else {
      assert Enabled(s, CheckAndStart(i));
    }
  }

  lemma {:induction false} WaiterMoves<S(!new), T(!new)>(s: State<S, T>, i: nat)
    requires Inv(s) && Shaped(s) && i < |s.tasks| && s.tasks[i].Concurrent() && s.tasks[i].stage.Waiting?
    ensures CanMove(s)
  {
    if s.tasks[i].general {
      GeneralHolderMoves(s, i);
    } else if s.general > 0 {
      assert Enabled(s, AcquireGeneral(i));
    } else {
      SumWitness(s.tasks, HeldGeneral);
      var j :| 0 <= j < |s.tasks| && Weight(s.tasks[j], HeldGeneral) > 0;
      GeneralHolderMoves(s, j);
    }
  }

  /** When every concurrent operation has reported, the loop itself can go on. */
  lemma {:induction false} LoopMoves<S(!new), T(!new)>(s: State<S, T>)
    requires Inv(s) && Shaped(s) && !Quiescent(s)
    requires forall i :: 0 <= i < |s.tasks| && s.tasks[i].Concurrent() ==>
               s.tasks[i].HasSent() && !s.tasks[i].general && !s.tasks[i].gpu
    requires !s.control.RunningExclusive?
    ensures CanMove(s)
  {
    hide ChannelInv, BufferInv;
    if s.done != [] {
      var i := s.done[0].seqNo;
      assert TaskOk(s.tasks[i]);
      SumBounds(s.tasks, i, i, InFlight);
      assert !s.control.Exited?;
      assert Enabled(s, ReceiveCompletion);
    } else {
      NoneInFlight(s);
      match s.control
      case Draining(_) => assert Enabled(s, StartExclusive);
      case Closing => assert Enabled(s, ExitLoop);
      case _ => SelectingMoves(s);
    }
  }

  lemma {:induction false} NoneInFlight<S, T>(s: State<S, T>)
    requires Inv(s) && s.done == []
    requires forall i :: 0 <= i < |s.tasks| && s.tasks[i].Concurrent() ==> s.tasks[i].HasSent()
    ensures s.inFlight == 0
  {
    SumZero(s.tasks, InFlight);
  }

  lemma {:induction false} SelectingMoves<S(!new), T(!new)>(s: State<S, T>)
    requires Inv(s) && Shaped(s) && !Quiescent(s) && s.done == [] && s.inFlight == 0
    requires s.control.Selecting? || s.control.Exited?
    requires forall i :: 0 <= i < |s.tasks| && s.tasks[i].Concurrent() ==>
               s.tasks[i].HasSent() && !s.tasks[i].general && !s.tasks[i].gpu
    ensures CanMove(s)
  {
    forall i | 0 <= i < |s.tasks|
      ensures s.tasks[i].stage.Received? && !s.tasks[i].general && !s.tasks[i].gpu
    {
      assert TaskOk(s.tasks[i]);
    }
    if s.submitted != [] {
      assert Enabled(s, ReceiveEnvelope);
    } else {
      assert Enabled(s, ReceiveClosed);
    }
  }

  /** Deadlock freedom: unless nothing is left to do, some task or the loop can
      take a step, without any help from a caller. */
  lemma {:induction false} NeverStuck<S(!new), T(!new)>(s: State<S, T>)
    requires Inv(s) && Shaped(s) && !Quiescent(s)
    ensures CanMove(s)
  {
    if i :| 0 <= i < |s.tasks| && Busy(s.tasks[i]) {
      BusyMoves(s, i);
    } else if i :| 0 <= i < |s.tasks| && s.tasks[i].Concurrent() && s.tasks[i].stage.Waiting? {
      WaiterMoves(s, i);
    } else {
      forall i | 0 <= i < |s.tasks| && s.tasks[i].Concurrent()
        ensures s.tasks[i].HasSent() && !s.tasks[i].general && !s.tasks[i].gpu
      {
        assert !Busy(s.tasks[i]);
      }
      if s.control.RunningExclusive? {
        BusyMoves(s, s.control.seqNo);
      } else {
        LoopMoves(s);
      }
    }
  }

  // ── Termination ───────────────────────────────────────────────────────────

  function QueueWork<S, T>(submitted: seq<Envelope<S, T>>): nat {
    if submitted == [] then 0 else |submitted[0].op.accesses| + 10 + QueueWork(submitted[1..])
  }

  function ControlWork(control: Control): nat {
    match control
    case Exited => 0
    case Closing => 1
    case _ => 2
  }

  /** A bound on the steps the tasks and the loop can still take. */
  function Remaining<S, T>(s: State<S, T>): nat {
    Sum(s.tasks, Work) + QueueWork(s.submitted) + ControlWork(s.control)
  }

  lemma {:induction false} MoveLowersWork<S, T>(a: Task<S, T>, b: Task<S, T>, cancelled: bool, access: bool)
    requires TaskOk(a) && StageMove(cancelled, access, a, b) && a.general == b.general && a.gpu == b.gpu
    requires a.stage != b.stage
    ensures Weight(b, Work) < Weight(a, Work)
  {}

  lemma {:induction false} PermitLowersWork<S, T>(s: State<S, T>, e: Event<S, T>)
    requires Shaped(s) && Enabled(s, e) && MovesPermit(e)
    requires TaskOk(s.tasks[e.i])
    ensures Weight(Next(s, e).tasks[e.i], Work) < Weight(s.tasks[e.i], Work)
  {}

  predicate Resolves<S, T>(e: Event<S, T>) {
    e.ReceiveCompletion? || e.StartExclusive? || e.FinishExclusive?
  }

  /** Every other step on a task moves its stage and leaves its permits. */
  ghost predicate MovesStage<S, T>(s: State<S, T>, n: State<S, T>, i: nat) {
    && i < |s.tasks| && |n.tasks| == |s.tasks|
    && n.tasks == s.tasks[i := n.tasks[i]]
    && n.tasks[i].general == s.tasks[i].general && n.tasks[i].gpu == s.tasks[i].gpu
    && n.tasks[i].stage != s.tasks[i].stage
    && n.submitted == s.submitted
    && ControlWork(n.control) <= ControlWork(s.control)
  }

  lemma {:induction false} TaskMovesStage<S, T>(s: State<S, T>, e: Event<S, T>)
    requires Shaped(s) && Enabled(s, e) && OfTask(e) && !MovesPermit(e)
    ensures MovesStage(s, Next(s, e), e.i)
  {}

  lemma {:induction false} LoopMovesStage<S, T>(s: State<S, T>, e: Event<S, T>)
    requires Shaped(s) && Enabled(s, e) && Resolves(e)
    requires e.ReceiveCompletion? ==> s.tasks[s.done[0].seqNo].stage.Sent?
    requires e.StartExclusive? ==> s.tasks[s.control.seqNo].stage.Waiting?
    ensures MovesStage(s, Next(s, e), Touched(s, e))
  {
    var i, n := Touched(s, e), Next(s, e);
    assert n.tasks == s.tasks[i := n.tasks[i]];
  }

  lemma {:induction false} StageWorkDecreases<S, T>(s: State<S, T>, e: Event<S, T>, i: nat)
    requires Inv(s) && Shaped(s) && Enabled(s, e) && i == Touched(s, e)
    requires MovesStage(s, Next(s, e), i)
    ensures Remaining(Next(s, e)) < Remaining(s)
  {
    var n := Next(s, e);
    StepMoves(s, e);
    assert TaskOk(s.tasks[i]);
    MoveLowersWork(s.tasks[i], n.tasks[i], s.cancelled, e.Access?);
    SumUpdate(s.tasks, i, n.tasks[i], Work);
  }

  lemma {:induction false} PermitWorkDecreases<S, T>(s: State<S, T>, e: Event<S, T>)
    requires Inv(s) && Shaped(s) && Enabled(s, e) && MovesPermit(e)
    ensures Remaining(Next(s, e)) < Remaining(s)
  {
    TaskStepShape(s, e);
    assert TaskOk(s.tasks[e.i]);
    PermitLowersWork(s, e);
    SumUpdate(s.tasks, e.i, Next(s, e).tasks[e.i], Work);
  }

  lemma {:induction false} EnvelopeWorkDecreases<S, T>(s: State<S, T>)
    requires Inv(s) && s.control.Selecting? && s.submitted != []
    ensures Remaining(TakeEnvelope(s)) < Remaining(s)
  {
    if !s.cancelled {
      EnvelopeTaken(s);
      SumAppend(s.tasks, Task(s.submitted[0].op, Waiting, false, false), Work);
    }
  }

  lemma {:induction false} EndingDecreases<S, T>(s: State<S, T>, e: Event<S, T>)
    requires Shaped(s) && Enabled(s, e) && (e.ReceiveClosed? || e.ExitLoop?)
    ensures Remaining(Next(s, e)) < Remaining(s)
  {}

  lemma {:induction false} StepDecreases<S, T>(s: State<S, T>, e: Event<S, T>)
    requires Inv(s) && Shaped(s) && Enabled(s, e) && !e.External()
    ensures Remaining(Next(s, e)) < Remaining(s)
  {
    if e.ReceiveEnvelope? {
      EnvelopeWorkDecreases(s);
    } else if MovesPermit(e) {
      PermitWorkDecreases(s, e);
    } else if OfTask(e) {
      TaskMovesStage(s, e);
      StageWorkDecreases(s, e, e.i);
    } else if Resolves(e) {
      LoopMovesStage(s, e);
      StageWorkDecreases(s, e, Touched(s, e));
    } else {
      EndingDecreases(s, e);
    }
  }

  /** The steps of a run that the tasks and the loop took. */
  function InternalSteps<S, T>(es: seq<Event<S, T>>): nat {
    if es == [] then 0 else (if es[0].External() then 0 else 1) + InternalSteps(es[1..])
  }

  lemma {:induction false} ClosedStays<S, T>(s: State<S, T>, e: Event<S, T>)
    requires Shaped(s) && Enabled(s, e) && !s.open
    ensures !Next(s, e).open
    ensures e.External() ==> Remaining(Next(s, e)) == Remaining(s)
  {}

  /** Once the channel is closed, by `close` or by `cancel`, no run can contain
      more than `Remaining` steps of the tasks and the loop. */
  lemma {:induction false} ClosedRunsAreFinite<S, T>(s: State<S, T>, es: seq<Event<S, T>>)
    requires Inv(s) && ValidRun(s, es) && !s.open
    ensures InternalSteps(es) + Remaining(After(s, es)) <= Remaining(s)
    ensures !After(s, es).open
    decreases |es|
  {
    if es != [] {
      StepKeepsInv(s, es[0]);
      ClosedStays(s, es[0]);
      if !es[0].External() {
        StepDecreases(s, es[0]);
      }
      ClosedRunsAreFinite(Next(s, es[0]), es[1..]);
    }
  }

  /** A closed executor that can go no further has exited, with every operation it
      took resolved, every value delivered and every permit returned. */
  lemma {:induction false} ClosedRunsEndExited<S(!new), T(!new)>(maxConcurrent: nat, shared: S, before: seq<Event<S, T>>, after: seq<Event<S, T>>)
    requires ValidRun(Init(maxConcurrent, shared), before)
    requires !Reached(maxConcurrent, shared, before).open
    requires ValidRun(Reached(maxConcurrent, shared, before), after)
    ensures InternalSteps(after) <= Remaining(Reached(maxConcurrent, shared, before))
    ensures var n := After(Reached(maxConcurrent, shared, before), after);
            && Shaped(n)
            && (!CanMove(n) ==>
                  && n.control.Exited?
                  && n.delivered == Outcomes(n.tasks)
                  && n.general == n.max && n.gpu == 1)
  {
    ReachedInv(maxConcurrent, shared, before);
    var s := Reached(maxConcurrent, shared, before);
    var n := After(s, after);
    RunKeepsInv(s, after);
    InvShaped(n);
    ClosedRunsAreFinite(s, after);
    if !CanMove(n) {
      if !Quiescent(n) {
        NeverStuck(n);
      }
      ExitedMeansDelivered(n);
      if Sum(n.tasks, HeldGeneral) > 0 {
        SumWitness(n.tasks, HeldGeneral);
      }
      if Sum(n.tasks, HeldGpu) > 0 {
        SumWitness(n.tasks, HeldGpu);
      }
    }
  }
}
