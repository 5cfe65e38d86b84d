/** The consumer's side of src/api/async_turn.rs as an object, and the worker's loop.
    Every method takes exactly the steps of AsyncBridge. */
module AsyncStream {
  import opened Wrappers
  import opened Assembly
  import opened StreamModel
  import opened EventStreams
  import Bridges = AsyncBridge

  datatype Poll = Pending | Ready(item: Option<StreamModel.Item>)

  /** Whatever the session is like, both come to the same. */
  ghost predicate SameOutcome(c: Core, d: Core) {
    forall s :: OutcomeOf(c, s) == OutcomeOf(d, s)
  }

  lemma {:induction false} SameAgain(c: Core, d: Core, e: Core)
    requires SameOutcome(c, d) && SameOutcome(d, e)
    ensures SameOutcome(c, e)
  {
    forall s
      ensures OutcomeOf(c, s) == OutcomeOf(e, s)
    {
      assert OutcomeOf(c, s) == OutcomeOf(d, s);
    }
  }

  lemma {:induction false} PullOnce(c: Core)
    requires Coherent(c)
    ensures Coherent(StreamModel.PullOf(c).core) && SameOutcome(StreamModel.PullOf(c).core, c)
    ensures match StreamModel.PullOf(c).item
            case None => ToPull(c) == [] && StreamModel.PullOf(c).core.done && StreamModel.PullOf(c).core.queue == []
            case Some(item) => ToPull(c) == [item] + ToPull(StreamModel.PullOf(c).core)
  {
    hide ToPull, OutcomeOf, StreamModel.PullOf, Coherent;
    PullKeepsCoherent(c);
    forall s
      ensures OutcomeOf(StreamModel.PullOf(c).core, s) == OutcomeOf(c, s)
    {
      PullTakesFirst(c, s);
    }
    PullTakesFirst(c, Transcript([], true, 0));
  }

  /** The worker pulls until there is nothing left and hands on each event in turn. */
  method PullAll(core: StreamCore) returns (sent: seq<StreamModel.Item>)
    requires core.Valid()
    modifies core, core.assembler, core.assembler.splitter
    ensures sent == ToPull(old(core.Abs()))
    ensures core.Valid() && core.done && core.queue == []
    ensures SameOutcome(core.Abs(), old(core.Abs()))
  {
    assert SameOutcome(core.Abs(), core.Abs());
    hide ToPull, SameOutcome, StreamModel.PullOf, Coherent, Tracks, ItemsOf, CallsOf, UnnamedIn, LastStats, ShedOf;
    sent := [];
    while true
      invariant core.Valid()
      invariant sent + ToPull(core.Abs()) == ToPull(old(core.Abs()))
      invariant SameOutcome(core.Abs(), old(core.Abs()))
      decreases |ToPull(core.Abs())|
    {
      ghost var before := core.Abs();
      PullOnce(before);
      SameAgain(StreamModel.PullOf(before).core, before, old(core.Abs()));
      var item := core.Pull();
      if item.None? {
        assert sent + [] == sent;
        return;
      }
      Reassociate(sent, [item.value], ToPull(core.Abs()));
      sent := sent + [item.value];
    }
  }

  /** Where the worker is; `NotSpawned` and `Joined` mean that there is none. */
  datatype Phase = NotSpawned | Working(held: Option<StreamModel.Item>) | Closing | Returning | Returned | Joined

  class AsyncEventStream {
    var phase: Phase
    var closed: bool
    var rx: seq<StreamModel.Item>
    /** The worker's as long as there is a worker, and the consumer's before and after. */
    const core: StreamCore
    var isBack: bool
    const session: Session
    ghost var consumed: seq<StreamModel.Item>
    ghost var ended: bool
    ghost var completions: nat

    /** The consumer has the core only when no worker does. */
    ghost predicate Valid()
      reads this, core, core.assembler, core.assembler.splitter
    {
      core.Valid() && (isBack ==> phase.NotSpawned? || phase.Joined?) && (phase.NotSpawned? ==> isBack)
    }

    ghost function Worker(): Bridges.Worker
      reads this, core, core.assembler, core.assembler.splitter
    {
      match phase
      case NotSpawned => Bridges.NotSpawned
      case Working(held) => Bridges.Working(core.Abs(), held)
      case Closing => Bridges.Closing(core.Abs())
      case Returning => Bridges.Returning(core.Abs())
      case Returned => Bridges.Returned(core.Abs())
      case Joined => Bridges.Joined
    }

    ghost function Abs(): Bridges.Bridge
      reads this, session, core, core.assembler, core.assembler.splitter
    {
      Bridges.Bridge(Worker(), closed, rx, if isBack then Some(core.Abs()) else None, session.Abs(), consumed, ended, completions)
    }

    /** A core that is over already stays here; any other goes to a worker. */
    constructor (core: StreamCore, session: Session)
      requires core.Valid()
      ensures Valid() && Abs() == Bridges.Start(core.Abs(), session.Abs())
      ensures this.session == session && this.core == core
    {
      this.core, this.session := core, session;
      rx, closed, phase, isBack := [], core.done, if core.done then NotSpawned else Working(None), core.done;
      consumed, ended, completions := [], false, 0;
    }

    /** The worker has ended: take its state back and settle the session. */
    method Settle()
      requires Valid() && phase.Returned?
      modifies this, core, core.assembler, core.assembler.splitter, session
      ensures Valid() && Abs() == Bridges.Settle(old(Abs()))
    {
      hide CompleteOf, Settled, Tracks, ItemsOf, CallsOf, UnnamedIn, LastStats, ShedOf;
      phase := Joined;
      if core.done && !core.settled && core.failed.None? {
        core.Complete(session);
        completions := completions + 1;
      }
      isBack := true;
    }

    method PopTail() returns (item: Option<StreamModel.Item>)
      requires Valid() && isBack
      modifies this, core
      ensures Valid() && Abs() == Bridges.PopTail(old(Abs()))
      ensures item == if old(core.queue) == [] then None else Some(Ok(old(core.queue)[0]))
    {
      hide Tracks, ItemsOf, CallsOf, UnnamedIn, LastStats, ShedOf;
      var event := core.PopQueued();
      match event {
        case None =>
          ended := true;
          item := None;
        case Some(e) =>
          item := Some(Ok(e));
          consumed := consumed + [Ok(e)];
      }
    }

    /** One poll. Ready with an event exactly when the consumer got one more, ready with
        nothing only when the stream has ended, and pending changes nothing. */
    method PollNext() returns (poll: Poll)
      requires Valid()
      modifies this, core, core.assembler, core.assembler.splitter, session
      ensures Valid() && Abs() == Bridges.Next(old(Abs()), Bridges.Poll)
      ensures poll == Pending ==> Abs() == old(Abs())
      ensures poll == Ready(None) ==> Abs().ended && Abs().consumed == old(Abs().consumed)
      ensures poll.Ready? && poll.item.Some? ==> Abs().consumed == old(Abs().consumed) + [poll.item.value]
    {
      hide CompleteOf, Settled, Coherent, Tracks, ItemsOf, CallsOf, UnnamedIn, LastStats, ShedOf;
      if !isBack {
        if rx != [] {
          poll := Ready(Some(rx[0]));
          consumed := consumed + [rx[0]];
          rx := rx[1..];
          return;
        }
        if !closed {
          return Pending;
        }
        if phase.Joined? {
          ended := true;
          return Ready(None);
        }
        if !phase.Returned? {
          return Pending;
        }
        Settle();
      }
      var item := PopTail();
      poll := Ready(item);
    }
  }
}
