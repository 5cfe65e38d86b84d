/** The executor's permits from the other side: no more are held back than the cap says, so
    that as many operations as it allows can run at once. */
module ExecutorCapacity {
  import opened Wrappers
  import opened ExecutorModel
  import opened ExecutorInvariant
  import opened ExecutorSafety

  // ── Permits ───────────────────────────────────────────────────────────────

  ghost function Holders<S, T>(tasks: seq<Task<S, T>>): set<int> {
    set i | 0 <= i < |tasks| && tasks[i].general
  }

  ghost function GpuHolders<S, T>(tasks: seq<Task<S, T>>): set<int> {
    set i | 0 <= i < |tasks| && tasks[i].gpu
  }

  lemma {:induction false} HoldersOfOneMore<S, T>(rest: seq<Task<S, T>>, t: Task<S, T>)
    ensures Holders(rest + [t]) == Holders(rest) + (if t.general then {|rest|} else {})
    ensures GpuHolders(rest + [t]) == GpuHolders(rest) + (if t.gpu then {|rest|} else {})
    ensures |rest| !in Holders(rest) && |rest| !in GpuHolders(rest)
  {
    forall i | 0 <= i < |rest|
      ensures (rest + [t])[i] == rest[i]
    {}
  }

  lemma {:induction false} OneMoreMember(s: set<int>, x: int)
    requires x !in s
    ensures |s + {x}| == |s| + 1 && s + {} == s
  {}

  lemma {:induction false} HoldersCounted<S, T>(tasks: seq<Task<S, T>>)
    ensures Sum(tasks, HeldGeneral) == |Holders(tasks)| && Sum(tasks, HeldGpu) == |GpuHolders(tasks)|
  {
    if tasks != [] {
      var n := |tasks| - 1;
      var rest, t := tasks[..n], tasks[n];
      HoldersCounted(rest);
      assert tasks == rest + [t];
      HoldersOfOneMore(rest, t);
      hide Holders, GpuHolders;
      OneMoreMember(Holders(rest), n);
      OneMoreMember(GpuHolders(rest), n);
    }
  }

  function Cap(maxConcurrent: nat): nat {
    if maxConcurrent > 1 then maxConcurrent else 1
  }

  /** In every reachable state the free permits and the tasks that hold one are together
      exactly as many as the cap, and there is one GPU permit, free or held. Only tasks
      that may run beside others ever hold any. */
  lemma {:induction false} PermitsAccounted<S, T>(maxConcurrent: nat, shared: S, es: seq<Event<S, T>>)
    requires ValidRun(Init(maxConcurrent, shared), es)
    ensures var s := Reached(maxConcurrent, shared, es);
            && s.general + |Holders(s.tasks)| == Cap(maxConcurrent)
            && s.gpu + |GpuHolders(s.tasks)| == 1
            && (forall i :: i in Holders(s.tasks) ==> s.tasks[i].op.guard != Exclusive)
            && (forall i :: i in GpuHolders(s.tasks) ==> s.tasks[i].op.guard == GpuBound && i in Holders(s.tasks))
  {
    ReachedInv(maxConcurrent, shared, es);
    var s := Reached(maxConcurrent, shared, es);
    HoldersCounted(s.tasks);
    MaxIsFixed(Init(maxConcurrent, shared), es);
    forall i | 0 <= i < |s.tasks|
      ensures TaskOk(s.tasks[i])
    {}
  }

  /** An operation that waits with what it needs, and starts unless there was a cancel. */
  predicate ReadyToStart<S, T>(t: Task<S, T>) {
    t.stage.Waiting? && t.general && (t.op.guard == Safe || (t.op.guard == GpuBound && t.gpu))
  }

  /** So a waiting Safe or GpuBound operation can go on exactly as far as the cap allows: it
      gets a permit as long as fewer than the cap are held, a GpuBound one then the GPU as
      long as nobody has it, and with these it starts. */
  lemma {:induction false} CapIsUsable<S, T>(maxConcurrent: nat, shared: S, es: seq<Event<S, T>>, i: nat)
    requires ValidRun(Init(maxConcurrent, shared), es)
    requires var s := Reached(maxConcurrent, shared, es); i < |s.tasks| && s.tasks[i].stage.Waiting? && s.tasks[i].op.guard != Exclusive
    ensures var s := Reached(maxConcurrent, shared, es);
            var t := s.tasks[i];
            && Shaped(s)
            && (!t.general ==> (Enabled(s, AcquireGeneral(i)) <==> |Holders(s.tasks)| < Cap(maxConcurrent)))
            && (t.general && t.op.guard == GpuBound && !t.gpu ==> (Enabled(s, AcquireGpu(i)) <==> GpuHolders(s.tasks) == {}))
            && (Enabled(s, CheckAndStart(i)) <==> ReadyToStart(t))
            && (ReadyToStart(t) && !s.cancelled ==> Next(s, CheckAndStart(i)).tasks[i].stage == Running([]))
  {
    PermitsAccounted(maxConcurrent, shared, es);
    ReachedInv(maxConcurrent, shared, es);
    InvShaped(Reached(maxConcurrent, shared, es));
  }

  // ── All at once ───────────────────────────────────────────────────────────

  lemma {:induction false} RunInTwo<S, T>(s: State<S, T>, a: seq<Event<S, T>>, b: seq<Event<S, T>>)
    requires ValidRun(s, a) && ValidRun(After(s, a), b)
    ensures ValidRun(s, a + b) && After(s, a + b) == After(After(s, a), b)
    decreases |a|
  {
    hide Next, Enabled, Shaped;
    if a == [] {
      assert a + b == b;
    } else {
      assert (a + b)[0] == a[0] && (a + b)[1..] == a[1..] + b;
      RunInTwo(Next(s, a[0]), a[1..], b);
    }
  }

  /** The state in which the first `k` operations run and nothing else has happened. */
  function Busy<S, T>(maxConcurrent: nat, shared: S, ops: seq<Op<S, T>>, k: nat): State<S, T>
    requires k <= |ops| <= Cap(maxConcurrent)
  {
    State(Cap(maxConcurrent), ops[..k], [], true, false,
          seq(k, i requires 0 <= i < k => Task(ops[i], Running([]), true, false)),
          Cap(maxConcurrent) - k, 1, [], Selecting, k, seq(k, _ => Pending), 0, [], shared)
  }

  /** Submitted, taken, given a permit, started. */
  function Started<S, T>(op: Op<S, T>, k: nat): seq<Event<S, T>> {
    [Submit(op), ReceiveEnvelope, AcquireGeneral(k), CheckAndStart(k)]
  }

  /** It is submitted and then taken. */
  function Taken<S, T>(s: State<S, T>, op: Op<S, T>): State<S, T> {
    s.(ops := s.ops + [op], tasks := s.tasks + [Task(op, Waiting, false, false)], inFlight := s.inFlight + 1,
       buffer := s.buffer + [Pending])
  }

  lemma {:induction false} SubmitAndTake<S, T>(s: State<S, T>, op: Op<S, T>)
    requires Shaped(s) && s.submitted == [] && s.open && !s.cancelled && s.control.Selecting? && op.guard == Safe
    requires |s.ops| == |s.tasks| && s.done == []
    ensures Enabled(s, Submit(op)) && Shaped(Next(s, Submit(op))) && Enabled(Next(s, Submit(op)), ReceiveEnvelope)
    ensures Next(Next(s, Submit(op)), ReceiveEnvelope) == Taken(s, op)
  {
    var n := Next(s, Submit(op));
    assert n.submitted == [Envelope(|s.ops|, op)];
    assert seq(1, _ => Pending) == [Slot<T>.Pending];
  }

  lemma {:induction false} AcquireAndStart<S, T>(s: State<S, T>, op: Op<S, T>)
    requires Shaped(s) && s.general > 0 && !s.cancelled && op.guard == Safe
    ensures var t, k := Taken(s, op), |s.tasks|;
            && Shaped(t) && Enabled(t, AcquireGeneral(k))
            && Shaped(Next(t, AcquireGeneral(k))) && Enabled(Next(t, AcquireGeneral(k)), CheckAndStart(k))
            && Next(Next(t, AcquireGeneral(k)), CheckAndStart(k))
               == t.(tasks := s.tasks + [Task(op, Running([]), true, false)], general := s.general - 1)
  {
    var t, k := Taken(s, op), |s.tasks|;
    assert t.tasks[k := Task(op, Waiting, true, false)] == s.tasks + [Task(op, Waiting, true, false)];
    assert t.tasks[k := Task(op, Running([]), true, false)] == s.tasks + [Task(op, Running([]), true, false)];
  }

  lemma {:induction false} NextBusy<S, T>(maxConcurrent: nat, shared: S, ops: seq<Op<S, T>>, k: nat)
    requires k < |ops| <= Cap(maxConcurrent)
    ensures var s := Busy(maxConcurrent, shared, ops, k);
            && Shaped(s) && s.submitted == [] && s.open && !s.cancelled && s.control.Selecting?
            && |s.ops| == |s.tasks| == k && s.done == [] && s.general > 0
            && Taken(s, ops[k]).(tasks := s.tasks + [Task(ops[k], Running([]), true, false)], general := s.general - 1)
               == Busy(maxConcurrent, shared, ops, k + 1)
  {
    var s := Busy(maxConcurrent, shared, ops, k);
    assert ops[..k] + [ops[k]] == ops[..k + 1];
    assert s.tasks + [Task(ops[k], Running([]), true, false)] == Busy(maxConcurrent, shared, ops, k + 1).tasks;
    assert s.buffer + [Pending] == Busy(maxConcurrent, shared, ops, k + 1).buffer;
  }

  lemma {:induction false} OneMoreBusy<S, T>(maxConcurrent: nat, shared: S, ops: seq<Op<S, T>>, k: nat)
    requires k < |ops| <= Cap(maxConcurrent) && ops[k].guard == Safe
    ensures ValidRun(Busy(maxConcurrent, shared, ops, k), Started(ops[k], k))
    ensures After(Busy(maxConcurrent, shared, ops, k), Started(ops[k], k)) == Busy(maxConcurrent, shared, ops, k + 1)
  {
    hide Next, Enabled, Shaped, Busy, Taken, After, ValidRun;
    var s, op := Busy(maxConcurrent, shared, ops, k), ops[k];
    NextBusy(maxConcurrent, shared, ops, k);
    SubmitAndTake(s, op);
    AcquireAndStart(s, op);
    var t := Taken(s, op);
    FourSteps(s, Next(s, Submit(op)), t, Next(t, AcquireGeneral(k)), Busy(maxConcurrent, shared, ops, k + 1), Started(op, k));
  }

  lemma {:induction false} FourSteps<S, T>(s: State<S, T>, s1: State<S, T>, s2: State<S, T>, s3: State<S, T>, s4: State<S, T>,
                                           es: seq<Event<S, T>>)
    requires |es| == 4
    requires Shaped(s) && Enabled(s, es[0]) && Next(s, es[0]) == s1
    requires Shaped(s1) && Enabled(s1, es[1]) && Next(s1, es[1]) == s2
    requires Shaped(s2) && Enabled(s2, es[2]) && Next(s2, es[2]) == s3
    requires Shaped(s3) && Enabled(s3, es[3]) && Next(s3, es[3]) == s4
    ensures ValidRun(s, es) && After(s, es) == s4
  {
    hide Shaped, Enabled, Next;
    var one, two, three := es[1..], es[1..][1..], es[1..][1..][1..];
    assert three[1..] == [];
    assert ValidRun(s3, three) && After(s3, three) == s4;
    assert ValidRun(s2, two) && After(s2, two) == s4;
    assert ValidRun(s1, one) && After(s1, one) == s4;
  }

  /** As many Safe operations as the cap allows can all be running at the same time. */
  lemma {:induction false} ManyAtOnce<S, T>(maxConcurrent: nat, shared: S, ops: seq<Op<S, T>>, k: nat) returns (es: seq<Event<S, T>>)
    requires k <= |ops| <= Cap(maxConcurrent) && forall i :: 0 <= i < |ops| ==> ops[i].guard == Safe
    ensures ValidRun(Init(maxConcurrent, shared), es)
    ensures var tasks := Reached(maxConcurrent, shared, es).tasks;
            && |tasks| == k && forall i :: 0 <= i < k ==> tasks[i].op == ops[i] && tasks[i].stage.Running?
    ensures Reached(maxConcurrent, shared, es) == Busy(maxConcurrent, shared, ops, k)
  {
    hide Next, Enabled;
    if k == 0 {
      es := [];
    } else {
      var most := ManyAtOnce(maxConcurrent, shared, ops, k - 1);
      OneMoreBusy(maxConcurrent, shared, ops, k - 1);
      RunInTwo(Init(maxConcurrent, shared), most, Started(ops[k - 1], k - 1));
      es := most + Started(ops[k - 1], k - 1);
    }
  }
}
