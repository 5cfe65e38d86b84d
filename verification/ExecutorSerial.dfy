/** Serializability of the executor: however its threads interleave, and wherever
    a cancellation lands, every delivered value is the one the operation would
    have computed had all operations run one by one in submission order. */
module ExecutorSerial {
  import opened Wrappers
  import opened ExecutorModel
  import opened ExecutorInvariant
  import opened ExecutorSafety

  // ── The one-by-one reference run ──────────────────────────────────────────

  function Apply<S, T>(op: Op<S, T>, s: S, k: nat): S
    requires k <= |op.accesses|
  {
    if k == 0 then s else op.accesses[k - 1](Observed(op, s, k - 1), Apply(op, s, k - 1))
  }

  /** What the first `k` accesses of `op` observe, alone, from `s`. */
  function Observed<S, T>(op: Op<S, T>, s: S, k: nat): seq<S>
    requires k <= |op.accesses|
  {
    if k == 0 then [] else Observed(op, s, k - 1) + [Apply(op, s, k - 1)]
  }

  /** The shared state after the first `n` operations, run one by one. */
  function SerialState<S, T>(ops: seq<Op<S, T>>, s: S, n: nat): S
    requires n <= |ops|
  {
    if n == 0 then s else Apply(ops[n - 1], SerialState(ops, s, n - 1), |ops[n - 1].accesses|)
  }

  /** The value operation `i` computes in the one-by-one run. */
  function SerialOutput<S, T>(ops: seq<Op<S, T>>, s: S, i: nat): T
    requires i < |ops|
  {
    ops[i].output(Observed(ops[i], SerialState(ops, s, i), |ops[i].accesses|))
  }

  /** `worlds` are the shared states along the accesses of `op` when it runs alone, and each
      access is made on the one before and knows all those before it. */
  ghost predicate Alone<S, T>(op: Op<S, T>, worlds: seq<S>) {
    && |worlds| == |op.accesses| + 1
    && forall k :: 0 <= k < |op.accesses| ==> worlds[k + 1] == op.accesses[k](worlds[..k], worlds[k])
  }

  lemma {:induction false} AppliesAlone<S, T>(op: Op<S, T>, s: S, k: nat) returns (worlds: seq<S>)
    requires k <= |op.accesses|
    ensures |worlds| == k + 1 && worlds[0] == s && worlds[k] == Apply(op, s, k) && worlds[..k] == Observed(op, s, k)
    ensures forall j :: 0 <= j < k ==> worlds[j + 1] == op.accesses[j](worlds[..j], worlds[j])
  {
    if k == 0 {
      worlds := [s];
    } else {
      var most := AppliesAlone(op, s, k - 1);
      worlds := most + [Apply(op, s, k)];
      forall j | 0 <= j < k
        ensures worlds[j + 1] == op.accesses[j](worlds[..j], worlds[j])
      {
        assert worlds[..j] == most[..j] && worlds[j] == most[j];
      }
      assert worlds[..k] == most && most == most[..k - 1] + [most[k - 1]];
    }
  }

  /** The one-by-one run is just that: the first operation begins with the initial state,
      each makes its accesses alone from what the one before it left, and computes its
      value from all that it saw. */
  lemma {:induction false} SerialIsOneByOne<S, T>(ops: seq<Op<S, T>>, s: S, i: nat) returns (worlds: seq<S>)
    requires i < |ops|
    ensures SerialState(ops, s, 0) == s
    ensures Alone(ops[i], worlds) && worlds[0] == SerialState(ops, s, i) && worlds[|ops[i].accesses|] == SerialState(ops, s, i + 1)
    ensures SerialOutput(ops, s, i) == ops[i].output(worlds[..|ops[i].accesses|])
  {
    worlds := AppliesAlone(ops[i], SerialState(ops, s, i), |ops[i].accesses|);
  }

  // ── The hypothesis ────────────────────────────────────────────────────────

  ghost predicate ReadsOnly<S(!new), T>(op: Op<S, T>) {
    forall k, seen, s :: 0 <= k < |op.accesses| ==> op.accesses[k](seen, s) == s
  }

  /** Every Safe and GpuBound operation leaves the shared state alone. */
  ghost predicate WellClassified<S(!new), T>(ops: seq<Op<S, T>>) {
    forall i :: 0 <= i < |ops| && ops[i].guard != Exclusive ==> ReadsOnly(ops[i])
  }

  // ── Reference-run lemmas ──────────────────────────────────────────────────

  lemma {:induction false} ReaderLeavesState<S(!new), T>(op: Op<S, T>, s: S, k: nat)
    requires ReadsOnly(op) && k <= |op.accesses|
    ensures Apply(op, s, k) == s
  {
    if k > 0 {
      ReaderLeavesState(op, s, k - 1);
    }
  }

  lemma {:induction false} ReadersLeaveState<S(!new), T>(ops: seq<Op<S, T>>, s: S, i: nat, n: nat)
    requires i <= n <= |ops|
    requires forall j :: i <= j < n ==> ReadsOnly(ops[j])
    ensures SerialState(ops, s, n) == SerialState(ops, s, i)
  {
    if i < n {
      ReadersLeaveState(ops, s, i, n - 1);
      ReaderLeavesState(ops[n - 1], SerialState(ops, s, n - 1), |ops[n - 1].accesses|);
    }
  }

  lemma {:induction false} SerialPrefix<S, T>(ops: seq<Op<S, T>>, more: seq<Op<S, T>>, s: S, n: nat)
    requires n <= |ops| <= |more| && more[..|ops|] == ops
    ensures SerialState(more, s, n) == SerialState(ops, s, n)
  {
    if n > 0 {
      SerialPrefix(ops, more, s, n - 1);
      assert more[n - 1] == more[..|ops|][n - 1] == ops[n - 1];
    }
  }

  // ── The invariant ─────────────────────────────────────────────────────────

  /** A result already computed is the expected one, and a running operation has
      seen what it sees in the one-by-one run. */
  ghost predicate TaskSerial<S, T>(t: Task<S, T>, before: S, expected: T) {
    && (t.stage.Finished? || t.HasSent() ==> t.stage.result == None || t.stage.result == Some(expected))
    && (t.stage.Running? ==>
          && |t.stage.seen| <= |t.op.accesses|
          && t.stage.seen == Observed(t.op, before, |t.stage.seen|))
  }

  ghost predicate TasksSerial<S, T>(tasks: seq<Task<S, T>>, ops: seq<Op<S, T>>, s0: S) {
    && |tasks| <= |ops|
    && forall i :: 0 <= i < |tasks| ==>
         tasks[i].op == ops[i] && TaskSerial(tasks[i], SerialState(ops, s0, i), SerialOutput(ops, s0, i))
  }

  /** How far the one-by-one run has been reproduced in the shared state. */
  function Frontier<S, T>(control: Control, tasks: seq<Task<S, T>>): nat {
    if control.Draining? || control.RunningExclusive? then control.seqNo else |tasks|
  }

  /** The loop may still start something. */
  ghost predicate Live<S, T>(control: Control, tasks: seq<Task<S, T>>) {
    !(control.Closing? || control.Exited?) || !ReceivedBelow(tasks, |tasks|)
  }

  /** The number of accesses the running Exclusive operation has made. */
  function Progress<S, T>(control: Control, tasks: seq<Task<S, T>>): nat {
    if control.RunningExclusive? && control.seqNo < |tasks| && tasks[control.seqNo].stage.Running?
    then |tasks[control.seqNo].stage.seen| else 0
  }

  ghost predicate SharedSerial<S, T>(shared: S, control: Control, tasks: seq<Task<S, T>>, ops: seq<Op<S, T>>, s0: S) {
    Live(control, tasks) ==>
      var f, k := Frontier(control, tasks), Progress(control, tasks);
      && f <= |ops|
      && (k > 0 ==> f < |ops| && k <= |ops[f].accesses|)
      && shared == (if k > 0 then Apply(ops[f], SerialState(ops, s0, f), k) else SerialState(ops, s0, f))
  }

  ghost predicate SerialInv<S, T>(s: State<S, T>, s0: S) {
    && TasksSerial(s.tasks, s.ops, s0)
    && SharedSerial(s.shared, s.control, s.tasks, s.ops, s0)
  }

  // ── Accesses ──────────────────────────────────────────────────────────────

  /** After an unresolved concurrent operation only concurrent ones were taken,
      up to the frontier. */
  lemma {:induction false} ConcurrentSince<S, T>(s: State<S, T>, i: nat, j: nat)
    requires ControlInv(s.control, s.inFlight, s.tasks) && TasksInv(s.tasks)
    requires i <= j < Frontier(s.control, s.tasks) <= |s.tasks|
    requires s.tasks[i].Concurrent() && !s.tasks[i].stage.Received?
    ensures s.tasks[j].Concurrent()
  {}

  lemma {:induction false} StableSince<S(!new), T>(s: State<S, T>, s0: S, i: nat)
    requires Inv(s) && WellClassified(s.ops)
    requires i < |s.tasks| && s.tasks[i].Concurrent() && !s.tasks[i].stage.Received?
    ensures !s.control.RunningExclusive?
    ensures i <= Frontier(s.control, s.tasks) <= |s.ops|
    ensures SerialState(s.ops, s0, Frontier(s.control, s.tasks)) == SerialState(s.ops, s0, i)
  {
    SumBounds(s.tasks, i, i, InFlight);
    var f := Frontier(s.control, s.tasks);
    forall j | i <= j < f ensures ReadsOnly(s.ops[j]) {
      ConcurrentSince(s, i, j);
      assert s.tasks[j].op == s.ops[j];
    }
    ReadersLeaveState(s.ops, s0, i, f);
  }

  /** The next access of a running operation observes what the one-by-one run
      would show it. */
  lemma {:induction false} AccessSeesSerial<S(!new), T>(s: State<S, T>, s0: S, i: nat)
    requires Inv(s) && SerialInv(s, s0) && WellClassified(s.ops)
    requires i < |s.tasks| && s.tasks[i].stage.Running? && |s.tasks[i].stage.seen| < |s.tasks[i].op.accesses|
    ensures s.shared == Apply(s.ops[i], SerialState(s.ops, s0, i), |s.tasks[i].stage.seen|)
  {
    var t := s.tasks[i];
    assert Live(s.control, s.tasks);
    assert t.op == s.ops[i];
    if t.Concurrent() {
      StableSince(s, s0, i);
      ReaderLeavesState(t.op, SerialState(s.ops, s0, i), |t.stage.seen|);
    } else {
      assert s.control == RunningExclusive(i);
    }
  }

  lemma {:induction false} AccessKeepsTasks<S, T>(tasks: seq<Task<S, T>>, ops: seq<Op<S, T>>, s0: S, i: nat, shared: S)
    requires TasksSerial(tasks, ops, s0) && i < |tasks|
    requires tasks[i].stage.Running? && |tasks[i].stage.seen| < |tasks[i].op.accesses|
    requires shared == Apply(ops[i], SerialState(ops, s0, i), |tasks[i].stage.seen|)
    ensures TasksSerial(tasks[i := tasks[i].(stage := Running(tasks[i].stage.seen + [shared]))], ops, s0)
  {
    var t := tasks[i];
    var t' := t.(stage := Running(t.stage.seen + [shared]));
    assert TaskSerial(t, SerialState(ops, s0, i), SerialOutput(ops, s0, i));
    assert t'.stage.seen == Observed(ops[i], SerialState(ops, s0, i), |t.stage.seen| + 1);
    assert TaskSerial(t', SerialState(ops, s0, i), SerialOutput(ops, s0, i));
  }

  lemma {:induction false} AccessSide<S(!new), T>(s: State<S, T>, i: nat)
    requires Inv(s) && WellClassified(s.ops) && i < |s.tasks| && s.tasks[i].stage.Running?
    ensures s.tasks[i].Concurrent() ==> !s.control.RunningExclusive? && ReadsOnly(s.ops[i])
    ensures !s.tasks[i].Concurrent() ==> s.control == RunningExclusive(i)
  {
    SumBounds(s.tasks, i, i, InFlight);
    assert s.tasks[i].op == s.ops[i];
  }

  /** A reader's access leaves the shared state, an Exclusive one's advances it
      by exactly one access of the one-by-one run. */
  lemma {:induction false} AccessKeepsShared<S(!new), T>(s: State<S, T>, s0: S, i: nat, t': Task<S, T>)
    requires i < |s.tasks| && s.tasks[i].stage.Running?
    requires var k := |s.tasks[i].stage.seen|;
             && i < |s.ops| && s.tasks[i].op == s.ops[i] && k < |s.ops[i].accesses|
             && s.shared == Apply(s.ops[i], SerialState(s.ops, s0, i), k)
             && s.tasks[i].stage.seen == Observed(s.ops[i], SerialState(s.ops, s0, i), k)
             && t'.stage.Running? && |t'.stage.seen| == k + 1
    requires SharedSerial(s.shared, s.control, s.tasks, s.ops, s0)
    requires s.tasks[i].Concurrent() ==> !s.control.RunningExclusive? && ReadsOnly(s.ops[i])
    requires !s.tasks[i].Concurrent() ==> s.control == RunningExclusive(i)
    ensures SharedSerial(s.ops[i].accesses[|s.tasks[i].stage.seen|](s.tasks[i].stage.seen, s.shared), s.control,
                         s.tasks[i := t'], s.ops, s0)
  {
    var k, seen, tasks := |s.tasks[i].stage.seen|, s.tasks[i].stage.seen, s.tasks[i := t'];
    assert Live(s.control, s.tasks);
    if s.tasks[i].Concurrent() {
      assert s.ops[i].accesses[k](seen, s.shared) == s.shared;
      assert Frontier(s.control, tasks) == Frontier(s.control, s.tasks);
    } else {
      assert Progress(s.control, tasks) == k + 1;
      assert s.ops[i].accesses[k](seen, s.shared) == Apply(s.ops[i], SerialState(s.ops, s0, i), k + 1);
    }
  }

  // ── The other steps ───────────────────────────────────────────────────────

  /** Settling a result after all accesses gives the expected value. */
  lemma {:induction false} MoveKeepsTaskSerial<S, T>(a: Task<S, T>, b: Task<S, T>, cancelled: bool, ops: seq<Op<S, T>>, s0: S, i: nat)
    requires i < |ops| && a.op == ops[i] && StageMove(cancelled, false, a, b)
    requires TaskSerial(a, SerialState(ops, s0, i), SerialOutput(ops, s0, i))
    ensures TaskSerial(b, SerialState(ops, s0, i), SerialOutput(ops, s0, i))
  {}

  lemma {:induction false} MovesKeepTasksSerial<S, T>(before: seq<Task<S, T>>, after: seq<Task<S, T>>, i: nat, cancelled: bool,
                                   ops: seq<Op<S, T>>, s0: S)
    requires TasksSerial(before, ops, s0) && TasksMove(cancelled, false, before, after, i)
    requires |after| <= |ops| && forall j :: 0 <= j < |after| ==> after[j].op == ops[j]
    ensures TasksSerial(after, ops, s0)
  {
    forall j | 0 <= j < |after| ensures TaskSerial(after[j], SerialState(ops, s0, j), SerialOutput(ops, s0, j)) {
      if j < |before| {
        assert TaskSerial(before[j], SerialState(ops, s0, j), SerialOutput(ops, s0, j));
        if j == i {
          MoveKeepsTaskSerial(before[i], after[i], cancelled, ops, s0, i);
        }
      }
    }
  }

  lemma {:induction false} OpsFixed<S, T>(s: State<S, T>, e: Event<S, T>)
    requires Shaped(s) && Enabled(s, e) && !e.Submit?
    ensures Next(s, e).ops == s.ops
  {}

  lemma {:induction false} StepKeepsTasksSerial<S, T>(s: State<S, T>, s0: S, e: Event<S, T>)
    requires Inv(s) && TasksSerial(s.tasks, s.ops, s0) && Shaped(s) && Enabled(s, e) && !e.Access? && !e.Submit?
    requires Inv(Next(s, e))
    ensures TasksSerial(Next(s, e).tasks, s.ops, s0)
  {
    StepMoves(s, e);
    OpsFixed(s, e);
    OpsMatch(Next(s, e));
    MovesKeepTasksSerial(s.tasks, Next(s, e).tasks, Touched(s, e), s.cancelled, s.ops, s0);
  }

  lemma {:induction false} OpsMatch<S, T>(s: State<S, T>)
    requires Inv(s)
    ensures |s.tasks| <= |s.ops| && forall j :: 0 <= j < |s.tasks| ==> s.tasks[j].op == s.ops[j]
  {}

  lemma {:induction false} SubmitKeepsSerial<S, T>(s: State<S, T>, s0: S, op: Op<S, T>)
    requires SerialInv(s, s0) && Frontier(s.control, s.tasks) <= |s.ops|
    ensures SerialInv(s.(ops := s.ops + [op], submitted := s.submitted + [Envelope(|s.ops|, op)]), s0)
  {
    var ops := s.ops + [op];
    forall j | 0 <= j <= |s.ops| ensures SerialState(ops, s0, j) == SerialState(s.ops, s0, j) {
      SerialPrefix(s.ops, ops, s0, j);
    }
    forall j | 0 <= j < |s.tasks| ensures TaskSerial(s.tasks[j], SerialState(ops, s0, j), SerialOutput(ops, s0, j)) {
      assert TaskSerial(s.tasks[j], SerialState(s.ops, s0, j), SerialOutput(s.ops, s0, j));
    }
  }

  /** Taking an envelope moves the frontier past a reader, or not at all. */
  lemma {:induction false} EnvelopeKeepsShared<S(!new), T>(s: State<S, T>, s0: S, t: Task<S, T>, control: Control)
    requires SharedSerial(s.shared, s.control, s.tasks, s.ops, s0) && s.control.Selecting?
    requires |s.tasks| < |s.ops| && t.op == s.ops[|s.tasks|] && t.stage.Waiting?
    requires control == (if t.Concurrent() then Selecting else Draining(|s.tasks|))
    requires t.Concurrent() ==> ReadsOnly(t.op)
    ensures SharedSerial(s.shared, control, s.tasks + [t], s.ops, s0)
  {
    assert Live(s.control, s.tasks);
    if t.Concurrent() {
      ReaderLeavesState(t.op, SerialState(s.ops, s0, |s.tasks|), |t.op.accesses|);
    }
  }

  lemma {:induction false} TakeKeepsShared<S(!new), T>(s: State<S, T>, s0: S)
    requires Inv(s) && SerialInv(s, s0) && WellClassified(s.ops) && s.control.Selecting? && s.submitted != []
    ensures var n := TakeEnvelope(s); SharedSerial(n.shared, n.control, n.tasks, n.ops, s0)
  {
    if s.cancelled {
      DroppedKeepsShared(s, s0);
    } else {
      EnvelopeTaken(s);
      assert s.submitted[0] == Envelope(|s.tasks|, s.ops[|s.tasks|]);
      EnvelopeKeepsShared(s, s0, Task(s.ops[|s.tasks|], Waiting, false, false), TakeEnvelope(s).control);
    }
  }

  lemma {:induction false} DroppedKeepsShared<S, T>(s: State<S, T>, s0: S)
    requires SharedSerial(s.shared, s.control, s.tasks, s.ops, s0) && s.control.Selecting?
    ensures SharedSerial(s.shared, Closing, s.tasks, s.ops, s0)
  {}

  lemma {:induction false} StartKeepsShared<S, T>(s: State<S, T>, s0: S)
    requires Inv(s) && SerialInv(s, s0) && Shaped(s) && Enabled(s, StartExclusive)
    ensures var n := Next(s, StartExclusive); SharedSerial(n.shared, n.control, n.tasks, n.ops, s0)
  {
    hide CountInv, BufferInv, TasksSerial, SerialState, Apply, FlushedBuffer, FlushedValues, FlushEnd;
    var n, i := Next(s, StartExclusive), s.control.seqNo;
    assert n.tasks == s.tasks[i := n.tasks[i]];
    ExclusiveAlone(s);
    if s.cancelled {
      assert ReceivedBelow(n.tasks, |n.tasks|);
    }
  }

  /** A finished Exclusive operation has made all its accesses. */
  lemma {:induction false} FinishedMovesFrontier<S, T>(s: State<S, T>, s0: S, tasks: seq<Task<S, T>>)
    requires SharedSerial(s.shared, s.control, s.tasks, s.ops, s0) && s.control.RunningExclusive?
    requires var i := s.control.seqNo;
             && i + 1 == |s.tasks| == |tasks| <= |s.ops|
             && s.tasks[i].stage.Running? && |s.tasks[i].stage.seen| == |s.ops[i].accesses|
    ensures SharedSerial(s.shared, Selecting, tasks, s.ops, s0)
  {
    assert Live(s.control, s.tasks);
  }

  lemma {:induction false} FinishKeepsShared<S, T>(s: State<S, T>, s0: S)
    requires Inv(s) && SerialInv(s, s0) && Shaped(s) && Enabled(s, FinishExclusive)
    ensures var n := Next(s, FinishExclusive); SharedSerial(n.shared, n.control, n.tasks, n.ops, s0)
  {
    var n, i := Next(s, FinishExclusive), s.control.seqNo;
    assert n.tasks == s.tasks[i := n.tasks[i]];
    assert s.tasks[i].op == s.ops[i];
    FinishedMovesFrontier(s, s0, n.tasks);
  }

  predicate Quiet<S, T>(e: Event<S, T>) {
    !e.Access? && !e.Submit? && !e.ReceiveEnvelope? && !e.StartExclusive? && !e.FinishExclusive?
  }

  lemma {:induction false} QuietFields<S, T>(s: State<S, T>, e: Event<S, T>)
    requires Shaped(s) && Enabled(s, e) && Quiet(e)
    ensures var n := Next(s, e);
            && n.shared == s.shared
            && |n.tasks| == |s.tasks|
            && (n.control == s.control || (e.ReceiveClosed? && s.control.Selecting? && n.control.Closing?)
                || (e.ExitLoop? && s.control.Closing? && n.control.Exited?))
  {}

  lemma {:induction false} QuietKeepsProgress<S, T>(s: State<S, T>, e: Event<S, T>)
    requires Inv(s) && Shaped(s) && Enabled(s, e) && Quiet(e) && s.control.RunningExclusive?
    requires Inv(Next(s, e))
    ensures Progress(Next(s, e).control, Next(s, e).tasks) == Progress(s.control, s.tasks)
  {
    var n, i := Next(s, e), s.control.seqNo;
    QuietFields(s, e);
    StepMoves(s, e);
    assert n.tasks[i].stage.Running?;
  }

  /** The remaining steps leave the shared state and the frontier where they are. */
  lemma {:induction false} QuietKeepsShared<S, T>(s: State<S, T>, s0: S, e: Event<S, T>)
    requires Inv(s) && SerialInv(s, s0) && Shaped(s) && Enabled(s, e) && Quiet(e)
    requires Inv(Next(s, e))
    ensures SharedSerial(Next(s, e).shared, Next(s, e).control, Next(s, e).tasks, s.ops, s0)
  {
    hide ChannelInv, CountInv, DoneInv, BufferInv, TasksSerial, SerialState, Apply, FlushedBuffer, FlushedValues, FlushEnd;
    var n := Next(s, e);
    StepMoves(s, e);
    QuietFields(s, e);
    LiveBackwards(s.control, n.control, s.tasks, n.tasks, Touched(s, e), s.cancelled);
    if s.control.RunningExclusive? {
      QuietKeepsProgress(s, e);
    }
  }

  lemma {:induction false} LiveBackwards<S, T>(c: Control, c': Control, before: seq<Task<S, T>>, after: seq<Task<S, T>>, i: nat, cancelled: bool)
    requires TasksMove(cancelled, false, before, after, i) && |after| == |before|
    requires c.Closing? || c.Exited? ==> c'.Closing? || c'.Exited?
    ensures Live(c', after) ==> Live(c, before)
  {
    if ReceivedBelow(before, |before|) {
      assert ReceivedBelow(after, |after|);
    }
  }

  lemma {:induction false} StepKeepsSerial<S(!new), T>(s: State<S, T>, s0: S, e: Event<S, T>)
    requires Inv(s) && SerialInv(s, s0) && WellClassified(s.ops) && Shaped(s) && Enabled(s, e)
    ensures SerialInv(Next(s, e), s0)
  {
    hide Inv, WellClassified, SharedSerial;
    StepKeepsInv(s, e);
    if e.Access? {
      AccessSeesSerial(s, s0, e.i);
      OpsMatch(s);
      AccessKeepsTasks(s.tasks, s.ops, s0, e.i, s.shared);
      AccessSide(s, e.i);
      AccessKeepsShared(s, s0, e.i, Next(s, e).tasks[e.i]);
    } else if e.Submit? {
      OpsMatch(s);
      SubmitKeepsSerial(s, s0, e.op);
    } else {
      OpsFixed(s, e);
      StepKeepsTasksSerial(s, s0, e);
      if e.ReceiveEnvelope? {
        TakeKeepsShared(s, s0);
      } else if e.StartExclusive? {
        StartKeepsShared(s, s0);
      } else if e.FinishExclusive? {
        FinishKeepsShared(s, s0);
      } else {
        QuietKeepsShared(s, s0, e);
      }
    }
  }

  // ── Runs ──────────────────────────────────────────────────────────────────

  lemma {:induction false} OpsGrow<S, T>(s: State<S, T>, es: seq<Event<S, T>>)
    requires ValidRun(s, es)
    ensures s.ops <= After(s, es).ops
    decreases |es|
  {
    if es != [] {
      OpsGrow(Next(s, es[0]), es[1..]);
    }
  }

  lemma {:induction false} WellClassifiedPrefix<S(!new), T>(ops: seq<Op<S, T>>, all: seq<Op<S, T>>)
    requires ops <= all && WellClassified(all)
    ensures WellClassified(ops)
  {
    forall i | 0 <= i < |ops| && ops[i].guard != Exclusive ensures ReadsOnly(ops[i]) {
      assert all[i] == ops[i];
    }
  }

  lemma {:induction false} RunKeepsSerial<S(!new), T>(s: State<S, T>, s0: S, es: seq<Event<S, T>>)
    requires Inv(s) && SerialInv(s, s0) && ValidRun(s, es) && WellClassified(After(s, es).ops)
    ensures SerialInv(After(s, es), s0)
    decreases |es|
  {
    if es != [] {
      OpsGrow(s, es);
      WellClassifiedPrefix(s.ops, After(s, es).ops);
      StepKeepsInv(s, es[0]);
      StepKeepsSerial(s, s0, es[0]);
      RunKeepsSerial(Next(s, es[0]), s0, es[1..]);
    }
  }

  /** Serializability. Whatever the interleaving, and wherever a cancellation
      lands, each operation that was not skipped has the value of the one-by-one
      run of all accepted operations, and these are what is delivered, in order;
      an uncancelled run that has exited delivers exactly that whole sequence. */
  lemma {:induction false} Serializable<S(!new), T>(maxConcurrent: nat, s0: S, es: seq<Event<S, T>>)
    requires ValidRun(Init(maxConcurrent, s0), es)
    requires WellClassified(Reached(maxConcurrent, s0, es).ops)
    ensures var s := Reached(maxConcurrent, s0, es);
            && s.cursor <= |s.tasks| <= |s.ops|
            && s.delivered == Outcomes(s.tasks[..s.cursor])
            && (forall i :: 0 <= i < |s.tasks| && s.tasks[i].stage.Received? && s.tasks[i].stage.result.Some? ==>
                  s.tasks[i].stage.result.value == SerialOutput(s.ops, s0, i))
            && (s.control.Exited? && !s.cancelled ==>
                  && |s.delivered| == |s.ops|
                  && forall i :: 0 <= i < |s.ops| ==> s.delivered[i] == SerialOutput(s.ops, s0, i))
  {
    InitInv<S, T>(maxConcurrent, s0);
    RunKeepsSerial(Init(maxConcurrent, s0), s0, es);
    DeliveredInOrderExactlyOnce(maxConcurrent, s0, es);
    var s := Reached(maxConcurrent, s0, es);
    forall i | 0 <= i < |s.tasks| && s.tasks[i].stage.Received? && s.tasks[i].stage.result.Some?
      ensures s.tasks[i].stage.result.value == SerialOutput(s.ops, s0, i)
    {
      assert TaskSerial(s.tasks[i], SerialState(s.ops, s0, i), SerialOutput(s.ops, s0, i));
    }
  }
}
