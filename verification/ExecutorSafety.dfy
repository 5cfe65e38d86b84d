/** What the executor guarantees in every reachable state: no forbidden overlap,
    ordered exactly-once delivery, and cancellation that neither starts anything
    new nor loses anything already begun. */
module ExecutorSafety {
  import opened Wrappers
  import opened ExecutorModel
  import opened ExecutorInvariant

  /** The state a run of the executor reaches. */
  ghost function Reached<S, T>(maxConcurrent: nat, shared: S, es: seq<Event<S, T>>): State<S, T>
    requires ValidRun(Init(maxConcurrent, shared), es)
  {
    After(Init(maxConcurrent, shared), es)
  }

  lemma {:induction false} ReachedInv<S, T>(maxConcurrent: nat, shared: S, es: seq<Event<S, T>>)
    requires ValidRun(Init(maxConcurrent, shared), es)
    ensures Inv(Reached(maxConcurrent, shared, es))
  {
    InitInv<S, T>(maxConcurrent, shared);
    RunKeepsInv(Init(maxConcurrent, shared), es);
  }

  // ── Overlap ───────────────────────────────────────────────────────────────

  ghost function RunningNow<S, T>(tasks: seq<Task<S, T>>): set<int> {
    set i | 0 <= i < |tasks| && tasks[i].op.guard != Exclusive && tasks[i].stage.Running?
  }

  lemma {:induction false} ActiveIsCardinality<S, T>(tasks: seq<Task<S, T>>)
    ensures Sum(tasks, Active) == |RunningNow(tasks)|
  {
    if tasks != [] {
      var n := |tasks| - 1;
      ActiveIsCardinality(tasks[..n]);
      var rest := RunningNow(tasks[..n]);
      if tasks[n].Concurrent() && tasks[n].stage.Running? {
        assert RunningNow(tasks) == rest + {n};
      } else {
        assert RunningNow(tasks) == rest;
      }
    }
  }

  lemma {:induction false} ActiveAtMostHeld<S, T>(tasks: seq<Task<S, T>>)
    requires TasksInv(tasks)
    ensures Sum(tasks, Active) <= Sum(tasks, HeldGeneral)
  {
    forall i | 0 <= i < |tasks| ensures Weight(tasks[i], Active) <= Weight(tasks[i], HeldGeneral) {
      assert TaskOk(tasks[i]);
    }
    SumMonotone(tasks, Active, HeldGeneral);
  }

  lemma {:induction false} OneGpuHolder<S, T>(s: State<S, T>, i: nat, j: nat)
    requires Inv(s) && i < j < |s.tasks|
    ensures !(s.tasks[i].gpu && s.tasks[j].gpu)
  {
    SumBounds(s.tasks, i, j, HeldGpu);
  }

  /** An operation begins only after every earlier one it must not overlap. */
  lemma {:induction false} OrderAroundExclusive<S, T>(s: State<S, T>, i: nat, j: nat)
    requires Inv(s) && i < j < |s.tasks|
    requires !s.tasks[i].Concurrent() || (!s.tasks[j].Concurrent() && !s.tasks[j].stage.Waiting?)
    ensures s.tasks[i].stage.Received?
  {
    assert TaskOk(s.tasks[i]);
    if s.tasks[i].Concurrent() {
      assert ReceivedBelow(s.tasks, j);
    }
  }

  /** In every reachable state at most `max(1, maxConcurrent)` Safe and GpuBound
      operations run, at most one of them GpuBound; a running Exclusive operation
      runs alone; and of two operations of which one is Exclusive, the later one
      begins only when the earlier one has finished or been skipped. */
  lemma {:induction false} NoForbiddenOverlap<S, T>(maxConcurrent: nat, shared: S, es: seq<Event<S, T>>)
    requires ValidRun(Init(maxConcurrent, shared), es)
    ensures var tasks := Reached(maxConcurrent, shared, es).tasks;
            && |RunningNow(tasks)| <= (if maxConcurrent == 0 then 1 else maxConcurrent)
            && (forall i, j :: 0 <= i < j < |tasks| && tasks[i].stage.Running? && tasks[j].stage.Running? ==>
                  && tasks[i].op.guard != Exclusive && tasks[j].op.guard != Exclusive
                  && !(tasks[i].op.guard == GpuBound && tasks[j].op.guard == GpuBound))
            && (forall i, j :: 0 <= i < j < |tasks| && tasks[j].Started()
                               && (tasks[i].op.guard == Exclusive || tasks[j].op.guard == Exclusive) ==>
                  tasks[i].stage.Received?)
  {
    ReachedInv(maxConcurrent, shared, es);
    var s := Reached(maxConcurrent, shared, es);
    ActiveIsCardinality(s.tasks);
    ActiveAtMostHeld(s.tasks);
    MaxIsFixed(Init(maxConcurrent, shared), es);
    forall i, j | 0 <= i < j < |s.tasks| && s.tasks[i].stage.Running? && s.tasks[j].stage.Running?
      ensures && s.tasks[i].Concurrent() && s.tasks[j].Concurrent()
              && !(s.tasks[i].op.guard == GpuBound && s.tasks[j].op.guard == GpuBound)
    {
      assert TaskOk(s.tasks[i]) && TaskOk(s.tasks[j]);
      OneGpuHolder(s, i, j);
      if !s.tasks[i].Concurrent() || !s.tasks[j].Concurrent() {
        OrderAroundExclusive(s, i, j);
      }
    }
    forall i, j | 0 <= i < j < |s.tasks| && s.tasks[j].Started()
                  && (!s.tasks[i].Concurrent() || !s.tasks[j].Concurrent())
      ensures s.tasks[i].stage.Received?
    {
      OrderAroundExclusive(s, i, j);
    }
  }

  lemma {:induction false} MaxIsFixed<S, T>(s: State<S, T>, es: seq<Event<S, T>>)
    requires ValidRun(s, es)
    ensures After(s, es).max == s.max
    decreases |es|
  {
    if es != [] {
      MaxIsFixed(Next(s, es[0]), es[1..]);
    }
  }

  // ── Delivery ──────────────────────────────────────────────────────────────

  /** Once the loop has exited, every operation it took is resolved and the
      cursor has passed all of them. */
  lemma {:induction false} ExitedMeansDelivered<S, T>(s: State<S, T>)
    requires Inv(s) && s.control.Exited?
    ensures ReceivedBelow(s.tasks, |s.tasks|)
    ensures s.cursor == |s.buffer| == |s.tasks|
    ensures s.delivered == Outcomes(s.tasks)
  {
    NothingInFlight(s);
    forall i | 0 <= i < |s.tasks| ensures s.tasks[i].stage.Received? {
      assert TaskOk(s.tasks[i]);
    }
    assert s.cursor == |s.buffer|;
    assert s.tasks[..s.cursor] == s.tasks;
  }

  predicate WasSkipped<S, T>(t: Task<S, T>) {
    (t.stage.Finished? || t.HasSent()) && t.stage.result.None?
  }

  /** Only a cancellation makes an operation be skipped. */
  ghost predicate SkipsNeedCancel<S, T>(s: State<S, T>) {
    s.cancelled || (forall i :: 0 <= i < |s.tasks| ==> !WasSkipped(s.tasks[i]))
  }

  lemma {:induction false} StepKeepsSkips<S, T>(s: State<S, T>, e: Event<S, T>)
    requires Inv(s) && Shaped(s) && Enabled(s, e) && SkipsNeedCancel(s)
    ensures SkipsNeedCancel(Next(s, e))
  {
    StepMoves(s, e);
    MovesKeepSkips(e.Access?, s.tasks, Next(s, e).tasks, Touched(s, e));
  }

  lemma {:induction false} MovesKeepSkips<S, T>(access: bool, before: seq<Task<S, T>>, after: seq<Task<S, T>>, i: nat)
    ensures TasksMove(false, access, before, after, i) && (forall j :: 0 <= j < |before| ==> !WasSkipped(before[j])) ==>
              forall j :: 0 <= j < |after| ==> !WasSkipped(after[j])
  {}

  lemma {:induction false} RunKeepsSkips<S, T>(s: State<S, T>, es: seq<Event<S, T>>)
    requires Inv(s) && ValidRun(s, es) && SkipsNeedCancel(s)
    ensures SkipsNeedCancel(After(s, es))
    decreases |es|
  {
    if es != [] {
      StepKeepsInv(s, es[0]);
      StepKeepsSkips(s, es[0]);
      RunKeepsSkips(Next(s, es[0]), es[1..]);
    }
  }

  lemma {:induction false} OutcomesOfAll<S, T>(tasks: seq<Task<S, T>>)
    requires forall i :: 0 <= i < |tasks| ==> tasks[i].stage.Received? && tasks[i].stage.result.Some?
    ensures |Outcomes(tasks)| == |tasks|
    ensures forall i :: 0 <= i < |tasks| ==> tasks[i].stage.result == Some(Outcomes(tasks)[i])
  {
    if tasks != [] {
      OutcomesOfAll(tasks[..|tasks| - 1]);
    }
  }

  /** At every moment the delivered values are the outcomes of the operations
      below the cursor, in submission order; when the loop has exited that is
      every operation it took; and without a cancellation that is every accepted
      operation, each with exactly one value in its own position. */
  lemma {:induction false} DeliveredInOrderExactlyOnce<S, T>(maxConcurrent: nat, shared: S, es: seq<Event<S, T>>)
    requires ValidRun(Init(maxConcurrent, shared), es)
    ensures var s := Reached(maxConcurrent, shared, es);
            && s.cursor <= |s.tasks| <= |s.ops|
            && ReceivedBelow(s.tasks, s.cursor)
            && s.delivered == Outcomes(s.tasks[..s.cursor])
            && (s.control.Exited? ==> s.cursor == |s.buffer| == |s.tasks|)
            && (s.control.Exited? && !s.cancelled ==>
                  && |s.delivered| == |s.tasks| == |s.ops|
                  && forall i :: 0 <= i < |s.ops| ==>
                       s.tasks[i].op == s.ops[i] && s.tasks[i].stage == Received(Some(s.delivered[i])))
  {
    ReachedInv(maxConcurrent, shared, es);
    RunKeepsInvAndSkips(maxConcurrent, shared, es);
    var s := Reached(maxConcurrent, shared, es);
    forall i | 0 <= i < s.cursor ensures s.tasks[i].stage.Received? {
      assert SlotOk(s.tasks[i], s.buffer[i], true);
    }
    if s.control.Exited? {
      ExitedMeansDelivered(s);
      if !s.cancelled {
        OutcomesOfAll(s.tasks);
      }
    }
  }

  lemma {:induction false} RunKeepsInvAndSkips<S, T>(maxConcurrent: nat, shared: S, es: seq<Event<S, T>>)
    requires ValidRun(Init(maxConcurrent, shared), es)
    ensures SkipsNeedCancel(Reached(maxConcurrent, shared, es))
  {
    InitInv<S, T>(maxConcurrent, shared);
    RunKeepsSkips(Init(maxConcurrent, shared), es);
  }

  // ── Cancellation ──────────────────────────────────────────────────────────

  ghost function StartedSet<S, T>(tasks: seq<Task<S, T>>): set<int> {
    set i | 0 <= i < |tasks| && tasks[i].Started()
  }

  /** Under cancellation a step neither begins nor undoes an operation. */
  lemma {:induction false} MovesKeepStarted<S, T>(access: bool, before: seq<Task<S, T>>, after: seq<Task<S, T>>, i: nat)
    requires TasksMove(true, access, before, after, i)
    ensures StartedSet(after) == StartedSet(before)
  {
    forall j | 0 <= j < |before| ensures after[j].Started() == before[j].Started() {
      if j == i {
        assert StageMove(true, access, before[i], after[i]);
      }
    }
  }

  lemma {:induction false} CancelledRun<S, T>(s: State<S, T>, es: seq<Event<S, T>>)
    requires Inv(s) && ValidRun(s, es) && s.cancelled
    ensures After(s, es).cancelled && StartedSet(After(s, es).tasks) == StartedSet(s.tasks)
    decreases |es|
  {
    if es != [] {
      StepKeepsInv(s, es[0]);
      CancelSticks(s, es[0]);
      StepMoves(s, es[0]);
      MovesKeepStarted(es[0].Access?, s.tasks, Next(s, es[0]).tasks, Touched(s, es[0]));
      CancelledRun(Next(s, es[0]), es[1..]);
    }
  }

  /** The position of operation `i`'s value among the delivered ones. */
  ghost function Rank<S, T>(tasks: seq<Task<S, T>>, i: nat): nat
    requires i <= |tasks|
  {
    |Outcomes(tasks[..i])|
  }

  lemma {:induction false} OutcomeAtRank<S, T>(tasks: seq<Task<S, T>>, i: nat)
    requires i < |tasks| && tasks[i].stage.Received? && tasks[i].stage.result.Some?
    ensures Rank(tasks, i) < |Outcomes(tasks)|
    ensures Outcomes(tasks)[Rank(tasks, i)] == tasks[i].stage.result.value
  {
    assert tasks == tasks[..i] + tasks[i..i + 1] + tasks[i + 1..];
    OutcomesConcat(tasks[..i] + tasks[i..i + 1], tasks[i + 1..]);
    OutcomesConcat(tasks[..i], tasks[i..i + 1]);
  }

  /** From the cancellation on, whatever the threads do: no operation starts, and
      once the loop has exited every operation that had started has its value
      delivered, at its own place in the order, none held back by a skipped one. */
  lemma {:induction false} CancellationIsSound<S, T>(maxConcurrent: nat, shared: S, before: seq<Event<S, T>>, after: seq<Event<S, T>>)
    requires ValidRun(Init(maxConcurrent, shared), before)
    requires Reached(maxConcurrent, shared, before).cancelled
    requires ValidRun(Reached(maxConcurrent, shared, before), after)
    ensures var s := Reached(maxConcurrent, shared, before);
            var n := After(s, after);
            && StartedSet(n.tasks) == StartedSet(s.tasks)
            && (n.control.Exited? ==>
                  && n.delivered == Outcomes(n.tasks)
                  && forall i :: i in StartedSet(s.tasks) ==>
                       && i < |n.tasks|
                       && n.tasks[i].stage.Received? && n.tasks[i].stage.result.Some?
                       && Rank(n.tasks, i) < |n.delivered|
                       && n.delivered[Rank(n.tasks, i)] == n.tasks[i].stage.result.value)
  {
    ReachedInv(maxConcurrent, shared, before);
    var s := Reached(maxConcurrent, shared, before);
    var n := After(s, after);
    CancelledRun(s, after);
    RunKeepsInv(s, after);
    if n.control.Exited? {
      ExitedMeansDelivered(n);
      forall i | i in StartedSet(s.tasks)
        ensures && i < |n.tasks|
                && n.tasks[i].stage.Received? && n.tasks[i].stage.result.Some?
                && Rank(n.tasks, i) < |n.delivered|
                && n.delivered[Rank(n.tasks, i)] == n.tasks[i].stage.result.value
      {
        assert i in StartedSet(n.tasks);
        OutcomeAtRank(n.tasks, i);
      }
    }
  }
}
