/** The inductive invariant of the executor, and the proof that every step of
    every thread keeps it. */
module ExecutorInvariant {
  import opened Wrappers
  import opened ExecutorModel

  // ── Sums over the tasks ───────────────────────────────────────────────────

  /** What a sum over the tasks counts. `Work` bounds the steps still to come. */
  datatype Measure = HeldGeneral | HeldGpu | InFlight | Active | Work

  function Weight<S, T>(t: Task<S, T>, m: Measure): nat {
    match m
    case HeldGeneral => if t.general then 1 else 0
    case HeldGpu => if t.gpu then 1 else 0
    case InFlight => if t.Concurrent() && !t.stage.Received? then 1 else 0
    case Active => if t.Concurrent() && t.stage.Running? then 1 else 0
    case Work =>
      var held := (if t.general then 1 else 0) + (if t.gpu then 1 else 0);
      match t.stage
      case Waiting => |t.op.accesses| + 9 - held
      case Running(seen) =>
        (if |seen| <= |t.op.accesses| then |t.op.accesses| - |seen| else 0) + 4 + held
      case Finished(_) => 3 + held
      case Sent(_) => 2 + held
      case Received(_) => held
  }

  function Sum<S, T>(ts: seq<Task<S, T>>, m: Measure): nat {
    if ts == [] then 0 else Sum(ts[..|ts| - 1], m) + Weight(ts[|ts| - 1], m)
  }

  lemma {:induction false} SumUpdate<S, T>(ts: seq<Task<S, T>>, i: nat, t: Task<S, T>, m: Measure)
    requires i < |ts|
    ensures Sum(ts[i := t], m) == Sum(ts, m) - Weight(ts[i], m) + Weight(t, m)
  {
    var n := |ts| - 1;
    if i == n {
      assert ts[i := t][..n] == ts[..n];
    } else {
      assert ts[i := t][..n] == ts[..n][i := t];
      SumUpdate(ts[..n], i, t, m);
    }
  }

  lemma {:induction false} SumAppend<S, T>(ts: seq<Task<S, T>>, t: Task<S, T>, m: Measure)
    ensures Sum(ts + [t], m) == Sum(ts, m) + Weight(t, m)
  {
    assert (ts + [t])[..|ts|] == ts;
  }

  /** A sum is at least any one, and any two, of its summands. */
  lemma {:induction false} SumBounds<S, T>(ts: seq<Task<S, T>>, i: nat, j: nat, m: Measure)
    requires i < |ts| && j < |ts|
    ensures Sum(ts, m) >= Weight(ts[i], m)
    ensures i != j ==> Sum(ts, m) >= Weight(ts[i], m) + Weight(ts[j], m)
  {
    var n := |ts| - 1;
    if i < n && j < n {
      SumBounds(ts[..n], i, j, m);
    } else if i < n {
      SumBounds(ts[..n], i, i, m);
    } else if j < n {
      SumBounds(ts[..n], j, j, m);
    }
  }

  /** A positive sum has a positive summand. */
  lemma {:induction false} SumWitness<S, T>(ts: seq<Task<S, T>>, m: Measure)
    requires Sum(ts, m) > 0
    ensures exists i :: 0 <= i < |ts| && Weight(ts[i], m) > 0
  {
    var n := |ts| - 1;
    if Weight(ts[n], m) == 0 {
      SumWitness(ts[..n], m);
      var i :| 0 <= i < n && Weight(ts[..n][i], m) > 0;
      assert Weight(ts[i], m) > 0;
    }
  }

  lemma {:induction false} SumZero<S, T>(ts: seq<Task<S, T>>, m: Measure)
    requires forall i :: 0 <= i < |ts| ==> Weight(ts[i], m) == 0
    ensures Sum(ts, m) == 0
  {
    if Sum(ts, m) > 0 {
      SumWitness(ts, m);
    }
  }

  lemma {:induction false} SumMonotone<S, T>(ts: seq<Task<S, T>>, a: Measure, b: Measure)
    requires forall i :: 0 <= i < |ts| ==> Weight(ts[i], a) <= Weight(ts[i], b)
    ensures Sum(ts, a) <= Sum(ts, b)
  {
    if ts != [] {
      var n := |ts| - 1;
      forall i | 0 <= i < n ensures Weight(ts[..n][i], a) <= Weight(ts[..n][i], b) {
        assert ts[..n][i] == ts[i];
      }
      SumMonotone(ts[..n], a, b);
    }
  }

  // ── Outcomes ──────────────────────────────────────────────────────────────

  /** The values of the operations that were not skipped, in submission order. */
  function Outcomes<S, T>(ts: seq<Task<S, T>>): seq<T> {
    if ts == [] then []
    else
      Outcomes(ts[..|ts| - 1]) +
      (match ts[|ts| - 1].stage case Received(Some(v)) => [v] case _ => [])
  }

  // ── The invariant ─────────────────────────────────────────────────────────

  /** The channel holds the accepted operations the loop has not taken, each
      under its own number; only a cancellation makes the loop drop one. */
  ghost predicate ChannelInv<S, T>(ops: seq<Op<S, T>>, submitted: seq<Envelope<S, T>>, open: bool,
                                   cancelled: bool, control: Control, tasks: seq<Task<S, T>>)
  {
    var ended := control.Closing? || control.Exited?;
    && |tasks| + |submitted| <= |ops|
    && (forall k :: 0 <= k < |submitted| ==>
          submitted[k] == Envelope(|ops| - |submitted| + k, ops[|ops| - |submitted| + k]))
    && (forall i :: 0 <= i < |tasks| ==> tasks[i].op == ops[i])
    && (!cancelled || !ended ==> |tasks| + |submitted| == |ops|)
    && (!cancelled && ended ==> submitted == [] && !open)
  }

  predicate TaskOk<S, T>(t: Task<S, T>) {
    && (t.op.guard == Exclusive ==>
          !t.general && (t.stage.Waiting? || t.stage.Running? || t.stage.Received?))
    && (t.gpu ==> t.general && t.op.guard == GpuBound)
    && (t.Concurrent() && (t.stage.Running? || t.stage.Finished?) ==>
          t.general && (t.op.guard == GpuBound ==> t.gpu))
    && (t.stage.Running? ==> |t.stage.seen| <= |t.op.accesses|)
  }

  ghost predicate TasksInv<S, T>(tasks: seq<Task<S, T>>) {
    forall i :: 0 <= i < |tasks| ==> TaskOk(tasks[i])
  }

  /** Permits are neither lost nor invented, and the loop's counter is exact. */
  ghost predicate CountInv<S, T>(max: nat, general: nat, gpu: nat, inFlight: int, tasks: seq<Task<S, T>>) {
    && max >= 1
    && general + Sum(tasks, HeldGeneral) == max
    && gpu + Sum(tasks, HeldGpu) == 1
    && inFlight == Sum(tasks, InFlight)
  }

  /** The completion channel holds exactly the results sent and not received. */
  ghost predicate DoneInv<S, T>(done: seq<Completion<T>>, tasks: seq<Task<S, T>>) {
    && (forall k :: 0 <= k < |done| ==>
          done[k].seqNo < |tasks| && tasks[done[k].seqNo].stage == Sent(done[k].result))
    && (forall k, l :: 0 <= k < l < |done| ==> done[k].seqNo != done[l].seqNo)
    && (forall i :: 0 <= i < |tasks| && tasks[i].stage.Sent? ==>
          Completion(i, tasks[i].stage.result) in done)
  }

  ghost predicate SlotOk<S, T>(t: Task<S, T>, slot: Slot<T>, passed: bool) {
    if passed then t.stage.Received? && slot == Pending
    else if t.stage.Received? then slot == SlotFor(t.stage.result)
    else slot == Pending
  }

  ghost predicate BufferInv<S, T>(buffer: seq<Slot<T>>, cursor: nat, delivered: seq<T>, tasks: seq<Task<S, T>>) {
    && |buffer| == |tasks|
    && cursor <= |buffer|
    && (forall i :: 0 <= i < |buffer| ==> SlotOk(tasks[i], buffer[i], i < cursor))
    && delivered == Outcomes(tasks[..cursor])
  }

  /** The flush left the cursor at the end or on an unresolved operation. */
  predicate AtRest<T>(buffer: seq<Slot<T>>, cursor: nat) {
    cursor < |buffer| ==> buffer[cursor].Pending?
  }

  /** An unresolved Exclusive operation is the last one taken, and the loop is
      occupied with it; an Exclusive that ran or was skipped had every earlier
      operation resolved before it. */
  ghost predicate ControlInv<S, T>(control: Control, inFlight: int, tasks: seq<Task<S, T>>) {
    && (forall i :: 0 <= i < |tasks| && !tasks[i].Concurrent() && tasks[i].stage.Waiting? ==>
          control == Draining(i))
    && (forall i :: 0 <= i < |tasks| && !tasks[i].Concurrent() && tasks[i].stage.Running? ==>
          control == RunningExclusive(i))
    && (control.Draining? ==>
          && control.seqNo + 1 == |tasks|
          && !tasks[control.seqNo].Concurrent() && tasks[control.seqNo].stage.Waiting?)
    && (control.RunningExclusive? ==>
          && control.seqNo + 1 == |tasks| && inFlight == 0
          && !tasks[control.seqNo].Concurrent() && tasks[control.seqNo].stage.Running?)
    && (control.Exited? ==> inFlight == 0)
    && (forall j :: 0 <= j < |tasks| && !tasks[j].Concurrent() && !tasks[j].stage.Waiting? ==>
          ReceivedBelow(tasks, j))
  }

  ghost predicate ReceivedBelow<S, T>(tasks: seq<Task<S, T>>, n: nat)
    requires n <= |tasks|
  {
    forall i :: 0 <= i < n ==> tasks[i].stage.Received?
  }

  ghost predicate Inv<S, T>(s: State<S, T>) {
    && ChannelInv(s.ops, s.submitted, s.open, s.cancelled, s.control, s.tasks)
    && TasksInv(s.tasks)
    && CountInv(s.max, s.general, s.gpu, s.inFlight, s.tasks)
    && DoneInv(s.done, s.tasks)
    && BufferInv(s.buffer, s.cursor, s.delivered, s.tasks)
    && AtRest(s.buffer, s.cursor)
    && ControlInv(s.control, s.inFlight, s.tasks)
  }

  lemma {:induction false} InvShaped<S, T>(s: State<S, T>)
    requires Inv(s)
    ensures Shaped(s)
  {}

  lemma {:induction false} InitInv<S, T>(maxConcurrent: nat, shared: S)
    ensures Inv(Init<S, T>(maxConcurrent, shared))
  {}

  // ── Outcomes and the flush ────────────────────────────────────────────────

  /** Outcomes depend only on the stages of the tasks. */
  lemma {:induction false} OutcomesSameStages<S, T>(a: seq<Task<S, T>>, b: seq<Task<S, T>>)
    requires |a| == |b| && forall i :: 0 <= i < |a| ==> a[i].stage == b[i].stage
    ensures Outcomes(a) == Outcomes(b)
  {
    if a != [] {
      OutcomesSameStages(a[..|a| - 1], b[..|b| - 1]);
    }
  }

  lemma {:induction false} OutcomesConcat<S, T>(a: seq<Task<S, T>>, b: seq<Task<S, T>>)
    ensures Outcomes(a + b) == Outcomes(a) + Outcomes(b)
  {
    if b == [] {
      assert a + b == a;
    } else {
      var n := |b| - 1;
      assert (a + b)[..|a + b| - 1] == a + b[..n];
      OutcomesConcat(a, b[..n]);
    }
  }

  /** The ready slots of resolved operations are their outcomes. */
  lemma {:induction false} ValuesAreOutcomes<S, T>(ts: seq<Task<S, T>>, slots: seq<Slot<T>>)
    requires |ts| == |slots|
    requires forall i :: 0 <= i < |ts| ==> ts[i].stage.Received? && slots[i] == SlotFor(ts[i].stage.result)
    ensures Values(slots) == Outcomes(ts)
  {
    if ts != [] {
      ValuesAreOutcomes(ts[..|ts| - 1], slots[..|slots| - 1]);
    }
  }

  /** Flushing a buffer that agrees with the tasks keeps the agreement and stops
      at the first unresolved operation. */
  lemma {:induction false} FlushKeepsBuffer<S, T>(buffer: seq<Slot<T>>, cursor: nat, delivered: seq<T>, tasks: seq<Task<S, T>>)
    requires BufferInv(buffer, cursor, delivered, tasks)
    ensures BufferInv(FlushedBuffer(buffer, cursor), FlushEnd(buffer, cursor),
                      delivered + FlushedValues(buffer, cursor), tasks)
    ensures AtRest(FlushedBuffer(buffer, cursor), FlushEnd(buffer, cursor))
  {
    var e := FlushEnd(buffer, cursor);
    var f := FlushedBuffer(buffer, cursor);
    forall i | cursor <= i < e ensures tasks[i].stage.Received? && buffer[i] == SlotFor(tasks[i].stage.result) {
      assert SlotOk(tasks[i], buffer[i], false);
    }
    ValuesAreOutcomes(tasks[cursor..e], buffer[cursor..e]);
    OutcomesConcat(tasks[..cursor], tasks[cursor..e]);
    assert tasks[..e] == tasks[..cursor] + tasks[cursor..e];
    forall i | 0 <= i < |f| ensures SlotOk(tasks[i], f[i], i < e) {
      assert SlotOk(tasks[i], buffer[i], i < cursor);
    }
  }

  /** Resolving an unresolved operation and flushing. */
  lemma {:induction false} ResolveKeepsBuffer<S, T>(s: State<S, T>, i: nat, result: Option<T>)
    requires BufferInv(s.buffer, s.cursor, s.delivered, s.tasks)
    requires i < |s.tasks| && !s.tasks[i].stage.Received?
    ensures var n := Resolve(s, i, result);
            BufferInv(n.buffer, n.cursor, n.delivered, n.tasks) && AtRest(n.buffer, n.cursor)
  {
    var tasks := s.tasks[i := s.tasks[i].(stage := Received(result))];
    var buffer := s.buffer[i := SlotFor(result)];
    assert SlotOk(s.tasks[i], s.buffer[i], i < s.cursor);
    assert tasks[..s.cursor] == s.tasks[..s.cursor];
    forall j | 0 <= j < |buffer| ensures SlotOk(tasks[j], buffer[j], j < s.cursor) {
      assert SlotOk(s.tasks[j], s.buffer[j], j < s.cursor);
    }
    FlushKeepsBuffer(buffer, s.cursor, s.delivered, tasks);
  }

  // ── Changing one task ─────────────────────────────────────────────────────

  lemma {:induction false} ChangeTaskSums<S, T>(tasks: seq<Task<S, T>>, i: nat, t: Task<S, T>)
    requires i < |tasks|
    ensures Sum(tasks[i := t], HeldGeneral) == Sum(tasks, HeldGeneral) - Weight(tasks[i], HeldGeneral) + Weight(t, HeldGeneral)
    ensures Sum(tasks[i := t], HeldGpu) == Sum(tasks, HeldGpu) - Weight(tasks[i], HeldGpu) + Weight(t, HeldGpu)
    ensures Sum(tasks[i := t], InFlight) == Sum(tasks, InFlight) - Weight(tasks[i], InFlight) + Weight(t, InFlight)
  {
    SumUpdate(tasks, i, t, HeldGeneral);
    SumUpdate(tasks, i, t, HeldGpu);
    SumUpdate(tasks, i, t, InFlight);
  }

  /** A task's step short of its resolution is invisible to the loop's buffer. */
  lemma {:induction false} ChangeTaskKeepsBuffer<S, T>(s: State<S, T>, i: nat, t: Task<S, T>)
    requires BufferInv(s.buffer, s.cursor, s.delivered, s.tasks) && i < |s.tasks|
    requires t.stage == s.tasks[i].stage || (!s.tasks[i].stage.Received? && !t.stage.Received?)
    ensures BufferInv(s.buffer, s.cursor, s.delivered, s.tasks[i := t])
  {
    var tasks := s.tasks[i := t];
    forall j | 0 <= j < |s.buffer| ensures SlotOk(tasks[j], s.buffer[j], j < s.cursor) {
      assert SlotOk(s.tasks[j], s.buffer[j], j < s.cursor);
    }
    assert SlotOk(s.tasks[i], s.buffer[i], i < s.cursor);
    OutcomesSameStages(s.tasks[..s.cursor], tasks[..s.cursor]);
  }

  lemma {:induction false} ChangeTaskKeepsControl<S, T>(s: State<S, T>, i: nat, t: Task<S, T>)
    requires ControlInv(s.control, s.inFlight, s.tasks) && i < |s.tasks|
    requires t.op == s.tasks[i].op
    requires || t.stage == s.tasks[i].stage
             || (s.tasks[i].stage.Running? && t.stage.Running?)
             || (t.Concurrent() && !s.tasks[i].stage.Received?)
    ensures ControlInv(s.control, s.inFlight, s.tasks[i := t])
  {
    var tasks := s.tasks[i := t];
    forall j | 0 <= j < |tasks| && !tasks[j].Concurrent() && !tasks[j].stage.Waiting?
      ensures ReceivedBelow(tasks, j)
    {
      assert ReceivedBelow(s.tasks, j);
    }
  }

  lemma {:induction false} ChangeTaskKeepsOk<S, T>(tasks: seq<Task<S, T>>, i: nat, t: Task<S, T>)
    requires TasksInv(tasks) && i < |tasks| && TaskOk(t)
    ensures TasksInv(tasks[i := t])
  {}

  /** The loop may stop taking envelopes once cancelled, or once the channel is
      closed and empty. */
  lemma {:induction false} ChangeTaskKeepsChannel<S, T>(s: State<S, T>, i: nat, t: Task<S, T>, control: Control)
    requires ChannelInv(s.ops, s.submitted, s.open, s.cancelled, s.control, s.tasks)
    requires i < |s.tasks| && t.op == s.tasks[i].op
    requires control.Closing? || control.Exited? ==> s.cancelled || s.control.Closing? || s.control.Exited?
    requires s.control.Closing? || s.control.Exited? ==> control.Closing? || control.Exited?
    ensures ChannelInv(s.ops, s.submitted, s.open, s.cancelled, control, s.tasks[i := t])
  {}

  lemma {:induction false} AppendKeepsChannel<S, T>(s: State<S, T>, t: Task<S, T>, control: Control)
    requires ChannelInv(s.ops, s.submitted, s.open, s.cancelled, s.control, s.tasks)
    requires s.control.Selecting? && (control.Selecting? || control.Draining?)
    requires s.submitted != [] && t.op == s.submitted[0].op
    ensures ChannelInv(s.ops, s.submitted[1..], s.open, s.cancelled, control, s.tasks + [t])
  {
    var tasks, rest := s.tasks + [t], s.submitted[1..];
    var base := |s.ops| - |s.submitted|;
    assert s.submitted[0] == Envelope(base, s.ops[base]);
    forall k | 0 <= k < |rest| ensures rest[k] == Envelope(base + 1 + k, s.ops[base + 1 + k]) {
      assert rest[k] == s.submitted[k + 1];
    }
  }

  lemma {:induction false} ChangeTaskKeepsDone<S, T>(s: State<S, T>, i: nat, t: Task<S, T>)
    requires DoneInv(s.done, s.tasks) && i < |s.tasks|
    requires t.stage == s.tasks[i].stage || (!s.tasks[i].stage.Sent? && !t.stage.Sent?)
    ensures DoneInv(s.done, s.tasks[i := t])
  {}

  lemma {:induction false} SendKeepsDone<S, T>(s: State<S, T>, i: nat)
    requires DoneInv(s.done, s.tasks) && i < |s.tasks| && s.tasks[i].stage.Finished?
    ensures var r := s.tasks[i].stage.result;
            DoneInv(s.done + [Completion(i, r)], s.tasks[i := s.tasks[i].(stage := Sent(r))])
  {
    var r := s.tasks[i].stage.result;
    var done, tasks := s.done + [Completion(i, r)], s.tasks[i := s.tasks[i].(stage := Sent(r))];
    forall j | 0 <= j < |tasks| && tasks[j].stage.Sent? ensures Completion(j, tasks[j].stage.result) in done {
      if j == i {
        assert done[|s.done|] == Completion(i, r);
      } else {
        assert Completion(j, s.tasks[j].stage.result) in s.done;
      }
    }
  }

  // ── Preservation, one kind of step at a time ──────────────────────────────

  /** A step of a spawned task, or an access by the running Exclusive operation. */
  predicate OfTask<S, T>(e: Event<S, T>) {
    !e.External() && !e.OfLoop()
  }

  predicate MovesPermit<S, T>(e: Event<S, T>) {
    e.AcquireGeneral? || e.AcquireGpu? || e.ReleaseGpu? || e.ReleaseGeneral?
  }

  lemma {:induction false} PermitStepKeepsCounts<S, T>(s: State<S, T>, e: Event<S, T>)
    requires CountInv(s.max, s.general, s.gpu, s.inFlight, s.tasks)
    requires Shaped(s) && Enabled(s, e) && MovesPermit(e) && TaskOk(s.tasks[e.i])
    ensures var n := Next(s, e);
            TaskOk(n.tasks[e.i]) && CountInv(n.max, n.general, n.gpu, n.inFlight, n.tasks)
  {
    ChangeTaskSums(s.tasks, e.i, Next(s, e).tasks[e.i]);
  }

  lemma {:induction false} WorkStepKeepsCounts<S, T>(s: State<S, T>, e: Event<S, T>)
    requires CountInv(s.max, s.general, s.gpu, s.inFlight, s.tasks)
    requires Shaped(s) && Enabled(s, e) && OfTask(e) && !MovesPermit(e) && TaskOk(s.tasks[e.i])
    ensures var n := Next(s, e);
            TaskOk(n.tasks[e.i]) && CountInv(n.max, n.general, n.gpu, n.inFlight, n.tasks)
  {
    ChangeTaskSums(s.tasks, e.i, Next(s, e).tasks[e.i]);
  }

  /** A step of a task changes that task, the semaphores and its channel only. */
  lemma {:induction false} TaskStepShape<S, T>(s: State<S, T>, e: Event<S, T>)
    requires Shaped(s) && Enabled(s, e) && OfTask(e)
    ensures var n := Next(s, e);
            && e.i < |s.tasks|
            && n == s.(tasks := n.tasks, general := n.general, gpu := n.gpu, done := n.done, shared := n.shared)
            && n.tasks == s.tasks[e.i := n.tasks[e.i]]
            && n.tasks[e.i].op == s.tasks[e.i].op
            && (n.tasks[e.i].stage == s.tasks[e.i].stage
                || (!s.tasks[e.i].stage.Received? && !n.tasks[e.i].stage.Received?
                    && (n.tasks[e.i].Concurrent() || (s.tasks[e.i].stage.Running? && n.tasks[e.i].stage.Running?)
                        || e.Send?)))
            && (e.Send? ==>
                  && s.tasks[e.i].stage.Finished?
                  && n.tasks[e.i] == s.tasks[e.i].(stage := Sent(s.tasks[e.i].stage.result))
                  && n.done == s.done + [Completion(e.i, s.tasks[e.i].stage.result)])
            && (!e.Send? ==>
                  && n.done == s.done
                  && (n.tasks[e.i].stage == s.tasks[e.i].stage
                      || (!s.tasks[e.i].stage.Sent? && !n.tasks[e.i].stage.Sent?)))
  {}

  lemma {:induction false} TaskStepKeepsInv<S, T>(s: State<S, T>, e: Event<S, T>)
    requires Inv(s) && Shaped(s) && Enabled(s, e) && OfTask(e)
    ensures Inv(Next(s, e))
  {
    TaskStepShape(s, e);
    var n := Next(s, e);
    var i := e.i;
    var t := n.tasks[i];
    assert TaskOk(s.tasks[i]);
    if MovesPermit(e) {
      PermitStepKeepsCounts(s, e);
    } else {
      WorkStepKeepsCounts(s, e);
    }
    ChangeTaskKeepsOk(s.tasks, i, t);
    ChangeTaskKeepsChannel(s, i, t, s.control);
    ChangeTaskKeepsBuffer(s, i, t);
    ChangeTaskKeepsControl(s, i, t);
    if e.Send? {
      SendKeepsDone(s, i);
    } else {
      ChangeTaskKeepsDone(s, i, t);
    }
  }

  lemma {:induction false} ExternalStepKeepsInv<S, T>(s: State<S, T>, e: Event<S, T>)
    requires Inv(s) && Shaped(s) && Enabled(s, e) && e.External()
    ensures Inv(Next(s, e))
  {
    hide CountInv, DoneInv, BufferInv, TaskOk;
  }

  lemma {:induction false} ReceiveKeepsDone<S, T>(s: State<S, T>)
    requires DoneInv(s.done, s.tasks) && s.done != []
    ensures var i := s.done[0].seqNo;
            DoneInv(s.done[1..], s.tasks[i := s.tasks[i].(stage := Received(s.done[0].result))])
  {
    var i := s.done[0].seqNo;
    var done, tasks := s.done[1..], s.tasks[i := s.tasks[i].(stage := Received(s.done[0].result))];
    forall j | 0 <= j < |tasks| && tasks[j].stage.Sent? ensures Completion(j, tasks[j].stage.result) in done {
      var k :| 0 <= k < |s.done| && s.done[k] == Completion(j, s.tasks[j].stage.result);
      assert done[k - 1] == s.done[k];
    }
  }

  lemma {:induction false} ReceiveKeepsControl<S, T>(s: State<S, T>, i: nat, r: Option<T>)
    requires ControlInv(s.control, s.inFlight, s.tasks) && i < |s.tasks| && s.tasks[i].Concurrent()
    requires !s.control.RunningExclusive? && !s.control.Exited?
    ensures ControlInv(s.control, s.inFlight - 1, s.tasks[i := s.tasks[i].(stage := Received(r))])
  {
    var tasks := s.tasks[i := s.tasks[i].(stage := Received(r))];
    forall j | 0 <= j < |tasks| && !tasks[j].Concurrent() && !tasks[j].stage.Waiting?
      ensures ReceivedBelow(tasks, j)
    {
      assert ReceivedBelow(s.tasks, j);
    }
  }

  lemma {:induction false} ReceiveKeepsCounts<S, T>(s: State<S, T>, i: nat, r: Option<T>)
    requires CountInv(s.max, s.general, s.gpu, s.inFlight, s.tasks)
    requires i < |s.tasks| && s.tasks[i].stage == Sent(r) && s.tasks[i].Concurrent()
    ensures CountInv(s.max, s.general, s.gpu, s.inFlight - 1, s.tasks[i := s.tasks[i].(stage := Received(r))])
  {
    ChangeTaskSums(s.tasks, i, s.tasks[i].(stage := Received(r)));
  }

  lemma {:induction false} CompletionTaken<S, T>(s: State<S, T>)
    requires Shaped(s) && Enabled(s, ReceiveCompletion)
    ensures var i, r := s.done[0].seqNo, s.done[0].result;
            var n := Next(s, ReceiveCompletion);
            && n == Resolve(s.(done := s.done[1..], inFlight := s.inFlight - 1), i, r)
            && n.tasks == s.tasks[i := s.tasks[i].(stage := Received(r))]
            && n.ops == s.ops && n.submitted == s.submitted && n.open == s.open && n.cancelled == s.cancelled
            && n.control == s.control && n.inFlight == s.inFlight - 1 && n.done == s.done[1..]
            && n.max == s.max && n.general == s.general && n.gpu == s.gpu
  {}

  lemma {:induction false} CompletionKeepsInv<S, T>(s: State<S, T>)
    requires Inv(s) && Shaped(s) && Enabled(s, ReceiveCompletion)
    ensures Inv(Next(s, ReceiveCompletion))
  {
    var i, r := s.done[0].seqNo, s.done[0].result;
    CompletionTaken(s);
    hide Next, Resolve, ChannelInv, CountInv, BufferInv, AtRest, ControlInv;
    assert i < |s.tasks| && s.tasks[i].stage == Sent(r) && TaskOk(s.tasks[i]) && s.tasks[i].Concurrent();
    hide TaskOk, DoneInv, TasksInv;
    ReceiveKeepsCounts(s, i, r);
    ChangeTaskKeepsOk(s.tasks, i, s.tasks[i].(stage := Received(r)));
    ChangeTaskKeepsChannel(s, i, s.tasks[i].(stage := Received(r)), s.control);
    ReceiveKeepsDone(s);
    ResolveKeepsBuffer(s.(done := s.done[1..], inFlight := s.inFlight - 1), i, r);
    ReceiveKeepsControl(s, i, r);
  }

  /** With nothing in flight every concurrent operation is resolved. */
  lemma {:induction false} NothingInFlight<S, T>(s: State<S, T>)
    requires Inv(s) && s.inFlight <= 0
    ensures forall i :: 0 <= i < |s.tasks| && s.tasks[i].Concurrent() ==> s.tasks[i].stage.Received?
  {
    forall i | 0 <= i < |s.tasks| && s.tasks[i].Concurrent() ensures s.tasks[i].stage.Received? {
      SumBounds(s.tasks, i, i, InFlight);
    }
  }

  lemma {:induction false} AppendKeepsControl<S, T>(s: State<S, T>, t: Task<S, T>)
    requires ControlInv(s.control, s.inFlight, s.tasks) && s.control.Selecting? && t.stage.Waiting?
    ensures t.Concurrent() ==> ControlInv(s.control, s.inFlight + 1, s.tasks + [t])
    ensures !t.Concurrent() ==> ControlInv(Draining(|s.tasks|), s.inFlight, s.tasks + [t])
  {
    var tasks := s.tasks + [t];
    forall j | 0 <= j < |tasks| && !tasks[j].Concurrent() && !tasks[j].stage.Waiting?
      ensures ReceivedBelow(tasks, j)
    {
      assert ReceivedBelow(s.tasks, j);
    }
  }

  lemma {:induction false} AppendKeepsBuffer<S, T>(s: State<S, T>, t: Task<S, T>)
    requires BufferInv(s.buffer, s.cursor, s.delivered, s.tasks) && t.stage.Waiting?
    ensures BufferInv(s.buffer + [Pending], s.cursor, s.delivered, s.tasks + [t])
  {
    assert (s.tasks + [t])[..s.cursor] == s.tasks[..s.cursor];
    forall j | 0 <= j < |s.buffer| + 1
      ensures SlotOk((s.tasks + [t])[j], (s.buffer + [Pending])[j], j < s.cursor)
    {
      if j < |s.buffer| {
        assert SlotOk(s.tasks[j], s.buffer[j], j < s.cursor);
      }
    }
  }

  lemma {:induction false} AppendKeepsOk<S, T>(tasks: seq<Task<S, T>>, t: Task<S, T>)
    requires TasksInv(tasks) && TaskOk(t)
    ensures TasksInv(tasks + [t])
  {}

  lemma {:induction false} AppendKeepsDone<S, T>(done: seq<Completion<T>>, tasks: seq<Task<S, T>>, t: Task<S, T>)
    requires DoneInv(done, tasks) && t.stage.Waiting?
    ensures DoneInv(done, tasks + [t])
  {}

  /** An accepted envelope extends the buffer by exactly its own slot. */
  lemma {:induction false} EnvelopeTaken<S, T>(s: State<S, T>)
    requires Inv(s) && s.control.Selecting? && s.submitted != [] && !s.cancelled
    ensures var env := s.submitted[0];
            var n := TakeEnvelope(s);
            && env.seqNo == |s.tasks|
            && n.tasks == s.tasks + [Task(env.op, Waiting, false, false)]
            && n.buffer == s.buffer + [Pending]
  {}

  lemma {:induction false} AppendKeepsCounts<S, T>(s: State<S, T>, t: Task<S, T>)
    requires CountInv(s.max, s.general, s.gpu, s.inFlight, s.tasks)
    requires t.stage.Waiting? && !t.general && !t.gpu
    ensures CountInv(s.max, s.general, s.gpu, s.inFlight + (if t.Concurrent() then 1 else 0), s.tasks + [t])
  {
    SumAppend(s.tasks, t, HeldGeneral);
    SumAppend(s.tasks, t, HeldGpu);
    SumAppend(s.tasks, t, InFlight);
  }

  lemma {:induction false} DroppedEnvelopeKeepsInv<S, T>(s: State<S, T>)
    requires Inv(s) && s.control.Selecting? && s.submitted != [] && s.cancelled
    ensures Inv(TakeEnvelope(s))
  {
    var n := TakeEnvelope(s);
    assert forall k :: 0 <= k < |n.submitted| ==> n.submitted[k] == s.submitted[k + 1];
    assert ChannelInv(n.ops, n.submitted, n.open, n.cancelled, n.control, n.tasks);
    assert ControlInv(n.control, n.inFlight, n.tasks);
  }

  lemma {:induction false} TakenEnvelopeKeepsInv<S, T>(s: State<S, T>)
    requires Inv(s) && s.control.Selecting? && s.submitted != [] && !s.cancelled
    ensures Inv(TakeEnvelope(s))
  {
    var n := TakeEnvelope(s);
    var t: Task<S, T> := Task(s.submitted[0].op, Waiting, false, false);
    EnvelopeTaken(s);
    AppendKeepsCounts(s, t);
    AppendKeepsControl(s, t);
    AppendKeepsBuffer(s, t);
    AppendKeepsChannel(s, t, n.control);
    AppendKeepsOk(s.tasks, t);
    AppendKeepsDone(s.done, s.tasks, t);
  }

  /** When an Exclusive operation starts or is skipped nothing else is unresolved. */
  lemma {:induction false} ExclusiveAlone<S, T>(s: State<S, T>)
    requires Inv(s) && s.inFlight <= 0
    requires s.control.Draining? || s.control.RunningExclusive?
    ensures ReceivedBelow(s.tasks, s.control.seqNo)
  {
    NothingInFlight(s);
    forall i | 0 <= i < s.control.seqNo ensures s.tasks[i].stage.Received? {
      if !s.tasks[i].Concurrent() {
        assert TaskOk(s.tasks[i]);
      }
    }
  }

  lemma {:induction false} ExclusiveKeepsControl<S, T>(s: State<S, T>, t: Task<S, T>, control: Control)
    requires ControlInv(s.control, s.inFlight, s.tasks)
    requires s.control.Draining? || s.control.RunningExclusive?
    requires s.inFlight == 0 && ReceivedBelow(s.tasks, s.control.seqNo)
    requires t.op == s.tasks[s.control.seqNo].op
    requires || (t.stage.Received? && (control.Closing? || control.Selecting?))
             || (t.stage.Running? && control == RunningExclusive(s.control.seqNo))
    ensures ControlInv(control, s.inFlight, s.tasks[s.control.seqNo := t])
  {
    var tasks := s.tasks[s.control.seqNo := t];
    forall j | 0 <= j < |tasks| && !tasks[j].Concurrent() && !tasks[j].stage.Waiting?
      ensures ReceivedBelow(tasks, j)
    {
      if j != s.control.seqNo {
        assert ReceivedBelow(s.tasks, j);
      }
    }
  }

  lemma {:induction false} ExclusiveKeepsCounts<S, T>(s: State<S, T>, i: nat, t: Task<S, T>)
    requires CountInv(s.max, s.general, s.gpu, s.inFlight, s.tasks) && i < |s.tasks|
    requires t.op == s.tasks[i].op && !t.Concurrent() && t.general == s.tasks[i].general && t.gpu == s.tasks[i].gpu
    ensures CountInv(s.max, s.general, s.gpu, s.inFlight, s.tasks[i := t])
  {
    ChangeTaskSums(s.tasks, i, t);
  }

  lemma {:induction false} ExclusiveStepKeepsInv<S, T>(s: State<S, T>, e: Event<S, T>)
    requires Inv(s) && Shaped(s) && Enabled(s, e) && (e.StartExclusive? || e.FinishExclusive?)
    ensures Inv(Next(s, e))
  {
    var n := Next(s, e);
    var i := s.control.seqNo;
    var t := n.tasks[i];
    assert n.tasks == s.tasks[i := t];
    assert TaskOk(s.tasks[i]);
    ExclusiveAlone(s);
    ChangeTaskKeepsOk(s.tasks, i, t);
    ChangeTaskKeepsChannel(s, i, t, n.control);
    ExclusiveKeepsCounts(s, i, t);
    ExclusiveKeepsControl(s, t, n.control);
    ChangeTaskKeepsDone(s, i, t);
    if t.stage.Running? {
      ChangeTaskKeepsBuffer(s, i, t);
    } else {
      ResolveKeepsBuffer(s, i, t.stage.result);
    }
  }

  lemma {:induction false} LoopClosedKeepsInv<S, T>(s: State<S, T>)
    requires Inv(s) && s.control.Selecting? && s.submitted == [] && !s.open
    ensures Inv(s.(control := Closing))
  {
    assert ChannelInv(s.ops, s.submitted, s.open, s.cancelled, Closing, s.tasks);
    assert ControlInv(Closing, s.inFlight, s.tasks);
  }

  lemma {:induction false} LoopExitKeepsInv<S, T>(s: State<S, T>)
    requires Inv(s) && s.control.Closing? && s.inFlight <= 0
    ensures Inv(Flush(s).(control := Exited))
  {
    FlushKeepsBuffer(s.buffer, s.cursor, s.delivered, s.tasks);
    assert ChannelInv(s.ops, s.submitted, s.open, s.cancelled, Exited, s.tasks);
    assert ControlInv(Exited, s.inFlight, s.tasks);
  }

  /** Every step of every thread keeps the invariant. */
  lemma {:induction false} StepKeepsInv<S, T>(s: State<S, T>, e: Event<S, T>)
    requires Inv(s) && Shaped(s) && Enabled(s, e)
    ensures Inv(Next(s, e)) && Shaped(Next(s, e))
  {
    if OfTask(e) {
      TaskStepKeepsInv(s, e);
    } else if e.External() {
      ExternalStepKeepsInv(s, e);
    } else if e.ReceiveCompletion? {
      CompletionKeepsInv(s);
    } else if e.ReceiveEnvelope? && s.cancelled {
      DroppedEnvelopeKeepsInv(s);
    } else if e.ReceiveEnvelope? {
      TakenEnvelopeKeepsInv(s);
    } else if e.StartExclusive? || e.FinishExclusive? {
      ExclusiveStepKeepsInv(s, e);
    } else if e.ReceiveClosed? {
      LoopClosedKeepsInv(s);
    } else {
      LoopExitKeepsInv(s);
    }
    InvShaped(Next(s, e));
  }

  // ── What one step does to the tasks ───────────────────────────────────────

  /** The only task a step can change (none, when there is no such index). */
  ghost function Touched<S, T>(s: State<S, T>, e: Event<S, T>): nat
    requires Shaped(s) && Enabled(s, e)
  {
    if OfTask(e) then e.i
    else if e.ReceiveCompletion? then s.done[0].seqNo
    else if e.StartExclusive? || e.FinishExclusive? then s.control.seqNo
    else |s.tasks|
  }

  /** How far one step can take a task: it begins only while not cancelled, is
      skipped only while cancelled, and keeps its result once it has one. */
  ghost predicate StageMove<S, T>(cancelled: bool, access: bool, a: Task<S, T>, b: Task<S, T>) {
    && a.op == b.op
    && match a.stage
       case Waiting =>
         || b.stage == Waiting
         || (!cancelled && b.stage == Running([]))
         || (cancelled && (b.stage == Finished(None) || b.stage == Received(None)))
       case Running(seen) =>
         var complete := |seen| == |a.op.accesses|;
         || (access && b.stage.Running? && !complete && |b.stage.seen| == |seen| + 1)
         || (!access && complete && (b.stage == Finished(Some(a.op.output(seen))) || b.stage == Received(Some(a.op.output(seen)))))
       case Finished(r) => b.stage == Sent(r)
       case Sent(r) => b.stage == Sent(r) || b.stage == Received(r)
       case Received(r) => b.stage == Received(r)
  }

  ghost predicate TasksMove<S, T>(cancelled: bool, access: bool, before: seq<Task<S, T>>, after: seq<Task<S, T>>, i: nat) {
    && |before| <= |after|
    && (forall j :: 0 <= j < |before| && j != i ==> after[j] == before[j])
    && (forall j :: |before| <= j < |after| ==> after[j].stage.Waiting?)
    && (i < |before| ==> StageMove(cancelled, access, before[i], after[i]))
  }

  lemma {:induction false} TaskStepMoves<S, T>(s: State<S, T>, e: Event<S, T>)
    requires Inv(s) && Shaped(s) && Enabled(s, e) && OfTask(e)
    ensures TasksMove(s.cancelled, e.Access?, s.tasks, Next(s, e).tasks, Touched(s, e))
  {
    TaskStepShape(s, e);
  }

  lemma {:induction false} ResolveStepMoves<S, T>(s: State<S, T>, e: Event<S, T>)
    requires Inv(s) && Shaped(s) && Enabled(s, e) && (e.ReceiveCompletion? || e.StartExclusive? || e.FinishExclusive?)
    ensures TasksMove(s.cancelled, e.Access?, s.tasks, Next(s, e).tasks, Touched(s, e))
  {
    hide ChannelInv, CountInv, BufferInv, FlushedBuffer, FlushedValues, FlushEnd;
    var n, i := Next(s, e), Touched(s, e);
    assert n.tasks == s.tasks[i := n.tasks[i]];
    if e.ReceiveCompletion? {
      assert s.tasks[i].stage == Sent(s.done[0].result);
    }
    assert StageMove(s.cancelled, e.Access?, s.tasks[i], n.tasks[i]);
  }

  lemma {:induction false} QuietStepMoves<S, T>(s: State<S, T>, e: Event<S, T>)
    requires Shaped(s) && Enabled(s, e)
    requires e.External() || e.ReceiveEnvelope? || e.ReceiveClosed? || e.ExitLoop?
    ensures TasksMove(s.cancelled, e.Access?, s.tasks, Next(s, e).tasks, Touched(s, e))
  {
    var n := Next(s, e);
    assert n.tasks == s.tasks || (e.ReceiveEnvelope? && n.tasks == s.tasks + [Task(s.submitted[0].op, Waiting, false, false)]);
  }

  lemma {:induction false} CancelSticks<S, T>(s: State<S, T>, e: Event<S, T>)
    requires Shaped(s) && Enabled(s, e) && s.cancelled
    ensures Next(s, e).cancelled
  {}

  lemma {:induction false} StepMoves<S, T>(s: State<S, T>, e: Event<S, T>)
    requires Inv(s) && Shaped(s) && Enabled(s, e)
    ensures TasksMove(s.cancelled, e.Access?, s.tasks, Next(s, e).tasks, Touched(s, e))
  {
    if OfTask(e) {
      TaskStepMoves(s, e);
    } else if e.ReceiveCompletion? || e.StartExclusive? || e.FinishExclusive? {
      ResolveStepMoves(s, e);
    } else {
      QuietStepMoves(s, e);
    }
  }

  lemma {:induction false} RunKeepsInv<S, T>(s: State<S, T>, es: seq<Event<S, T>>)
    requires Inv(s) && ValidRun(s, es)
    ensures Inv(After(s, es))
    decreases |es|
  {
    if es != [] {
      StepKeepsInv(s, es[0]);
      RunKeepsInv(Next(s, es[0]), es[1..]);
    }
  }
}
