/** The transcript repair of examples/continuity.rs: every tool call left without a
    result by an interrupted session is answered in place. */
module Continuity {
  import opened Wrappers

  datatype Call = Call(id: string, name: string, arguments: string)

  datatype Body = Content(text: string) | Tool(calls: seq<Call>)

  datatype Message = Message(role: string, body: Body, toolCallId: Option<string>)

  const INTERRUPTED := "interrupted: the session ended before this ran"

  /** The result that stands in for a call that never ran. */
  function ResultFor(id: string): Message {
    Message("tool", Content(INTERRUPTED), Some(id))
  }

  function Results(ids: seq<string>): seq<Message> {
    seq(|ids|, i requires 0 <= i < |ids| => ResultFor(ids[i]))
  }

  /** The ids some message of the transcript answers. */
  function Answered(messages: seq<Message>): set<string> {
    set m | m in messages && m.toolCallId.Some? :: m.toolCallId.value
  }

  function Unanswered(calls: seq<Call>, answered: set<string>): seq<string> {
    if calls == [] then []
    else (if calls[0].id in answered then [] else [calls[0].id]) + Unanswered(calls[1..], answered)
  }

  /** The results a message is owed. */
  function Owed(m: Message, answered: set<string>): seq<Message> {
    if m.body.Tool? then Results(Unanswered(m.body.calls, answered)) else []
  }

  function RepairedWith(messages: seq<Message>, answered: set<string>): seq<Message> {
    if messages == [] then []
    else [messages[0]] + Owed(messages[0], answered) + RepairedWith(messages[1..], answered)
  }

  function Repaired(messages: seq<Message>): seq<Message> {
    RepairedWith(messages, Answered(messages))
  }

  // ── The walk ──────────────────────────────────────────────────────────────

  /** Inserting what message `i` is owed behind it repairs one message more. */
  lemma {:induction false} WalkStep(before: seq<Message>, now: seq<Message>, answered: set<string>, i: nat)
    requires i < |before| && now == before[..i + 1] + RepairedWith(before[i + 1..], answered)
    ensures i < |now| && now[i] == before[i]
    ensures now[..i + 1] + Owed(before[i], answered) + now[i + 1..] == before[..i] + RepairedWith(before[i..], answered)
  {
    assert before[i..][1..] == before[i + 1..];
    assert before[..i + 1] == before[..i] + [before[i]];
    InsertBehind(before[..i], before[i], Owed(before[i], answered), RepairedWith(before[i + 1..], answered));
  }

  lemma {:induction false} InsertBehind<T>(a: seq<T>, m: T, owed: seq<T>, rest: seq<T>)
    ensures var now := a + [m] + rest;
            && now[|a|] == m
            && now[..|a| + 1] + owed + now[|a| + 1..] == a + ([m] + owed + rest)
  {
    var now := a + [m] + rest;
    assert now[..|a| + 1] == a + [m] && now[|a| + 1..] == rest;
  }

  class Session {
    var messages: seq<Message>

    constructor (messages: seq<Message>)
      ensures this.messages == messages
    {
      this.messages := messages;
    }

    /** Messages inserted one by one at the same index, last id first, end up in the
        order of the ids. */
    method InsertResults(i: nat, ids: seq<string>)
      requires i < |messages|
      modifies this
      ensures messages == old(messages)[..i + 1] + Results(ids) + old(messages)[i + 1..]
    {
      var k := |ids|;
      while k > 0
        invariant 0 <= k <= |ids|
        invariant messages == old(messages)[..i + 1] + Results(ids[k..]) + old(messages)[i + 1..]
      {
        k := k - 1;
        assert Results(ids[k..]) == [ResultFor(ids[k])] + Results(ids[k + 1..]);
        messages := messages[..i + 1] + [ResultFor(ids[k])] + messages[i + 1..];
      }
      assert ids[0..] == ids;
    }

    /** The backward walk. What counts as answered is fixed before it starts. The source
        walks inside `Session::edit`, which trims the edited transcript to whole tool
        rounds when the walk is over; that trimming is not part of this model. */
    method Repair()
      modifies this
      ensures messages == Repaired(old(messages))
    {
      ghost var before := messages;
      var answered := Answered(messages);
      var i := |messages|;
      while i > 0
        invariant 0 <= i <= |before|
        invariant messages == before[..i] + RepairedWith(before[i..], answered)
      {
        i := i - 1;
        assert before[..i + 1] == before[..i] + [before[i]];
        WalkStep(before, messages, answered, i);
        if messages[i].body.Tool? {
          var unanswered := Unanswered(messages[i].body.calls, answered);
          if unanswered != [] {
            InsertResults(i, unanswered);
          }
        }
      }
      assert before[0..] == before;
    }
  }

  // ── Where everything ends up ──────────────────────────────────────────────

  /** Where the `k`-th original message stands after the repair. */
  function Position(messages: seq<Message>, answered: set<string>, k: nat): nat
    requires k <= |messages|
  {
    if k == 0 then 0 else Position(messages, answered, k - 1) + 1 + |Owed(messages[k - 1], answered)|
  }

  lemma {:induction false} PositionShift(messages: seq<Message>, answered: set<string>, k: nat)
    requires 0 < k <= |messages|
    ensures Position(messages, answered, k)
            == 1 + |Owed(messages[0], answered)| + Position(messages[1..], answered, k - 1)
  {
    if k > 1 {
      PositionShift(messages, answered, k - 1);
    }
  }

  /** `m` stands at `here` in `out`, and nothing but `owed` stands between it and `next`. */
  predicate Stands(out: seq<Message>, here: nat, next: nat, m: Message, owed: seq<Message>) {
    here < next <= |out| && out[here] == m && out[here + 1..next] == owed
  }

  lemma {:induction false} StandsFirst(m: Message, owed: seq<Message>, tail: seq<Message>)
    ensures Stands([m] + owed + tail, 0, 1 + |owed|, m, owed)
  {}

  lemma {:induction false} StandsBehind(head: seq<Message>, tail: seq<Message>, here: nat, next: nat, m: Message, owed: seq<Message>)
    requires Stands(tail, here, next, m, owed)
    ensures Stands(head + tail, |head| + here, |head| + next, m, owed)
  {}

  /** Each original message survives where `Position` says, and up to the place of the
      next one there is nothing but the results of its own unanswered calls, in call
      order. */
  lemma {:induction false} OriginalsSurviveInOrder(messages: seq<Message>, answered: set<string>, k: nat)
    requires k < |messages|
    ensures Stands(RepairedWith(messages, answered), Position(messages, answered, k), Position(messages, answered, k + 1),
                   messages[k], Owed(messages[k], answered))
  {
    hide RepairedWith, Position, Owed, Stands;
    if k == 0 {
      FirstPositions(messages, answered);
      RepairedFirst(messages, answered);
      StandsFirst(messages[0], Owed(messages[0], answered), RepairedWith(messages[1..], answered));
    } else {
      assert messages[1..][k - 1] == messages[k];
      OriginalsSurviveInOrder(messages[1..], answered, k - 1);
      SurvivesBehind(messages, answered, k);
    }
  }

  lemma {:induction false} FirstPositions(messages: seq<Message>, answered: set<string>)
    requires messages != []
    ensures Position(messages, answered, 0) == 0 && Position(messages, answered, 1) == 1 + |Owed(messages[0], answered)|
  {}

  lemma {:induction false} RepairedFirst(messages: seq<Message>, answered: set<string>)
    requires messages != []
    ensures RepairedWith(messages, answered)
            == [messages[0]] + Owed(messages[0], answered) + RepairedWith(messages[1..], answered)
  {}

  lemma {:induction false} SurvivesBehind(messages: seq<Message>, answered: set<string>, k: nat)
    requires 0 < k < |messages|
    requires Stands(RepairedWith(messages[1..], answered), Position(messages[1..], answered, k - 1),
                    Position(messages[1..], answered, k), messages[k], Owed(messages[k], answered))
    ensures Stands(RepairedWith(messages, answered), Position(messages, answered, k), Position(messages, answered, k + 1),
                   messages[k], Owed(messages[k], answered))
  {
    hide RepairedWith, Position, Owed, Stands;
    RepairedFirst(messages, answered);
    PositionShift(messages, answered, k);
    PositionShift(messages, answered, k + 1);
    StandsBehind([messages[0]] + Owed(messages[0], answered), RepairedWith(messages[1..], answered),
                 Position(messages[1..], answered, k - 1), Position(messages[1..], answered, k),
                 messages[k], Owed(messages[k], answered));
  }

  /** The positions begin with the repaired transcript and end with it, so it holds
      nothing else. */
  lemma {:induction false} PositionsCoverAll(messages: seq<Message>, answered: set<string>)
    ensures Position(messages, answered, |messages|) == |RepairedWith(messages, answered)|
  {
    if messages != [] {
      PositionsCoverAll(messages[1..], answered);
      PositionShift(messages, answered, |messages|);
    }
  }

  /** What a message is owed: one stand-in for each call not answered, in call order. */
  lemma {:induction false} OwedInCallOrder(calls: seq<Call>, answered: set<string>)
    ensures forall id :: id in Unanswered(calls, answered) ==>
              id !in answered && exists c :: c in calls && c.id == id
    ensures forall c :: c in calls && c.id !in answered ==> c.id in Unanswered(calls, answered)
  {
    if calls != [] {
      OwedInCallOrder(calls[1..], answered);
      assert forall c :: c in calls <==> c == calls[0] || c in calls[1..];
    }
  }

  lemma {:induction false} UnansweredFirst(calls: seq<Call>, answered: set<string>)
    requires calls != []
    ensures Unanswered(calls, answered)
            == (if calls[0].id in answered then [] else [calls[0].id]) + Unanswered(calls[1..], answered)
  {}

  lemma {:induction false} OwedPartByPart(a: seq<Call>, b: seq<Call>, answered: set<string>)
    ensures Unanswered(a + b, answered) == Unanswered(a, answered) + Unanswered(b, answered)
  {
    if a == [] {
      assert a + b == b;
      assert [] + Unanswered(b, answered) == Unanswered(b, answered);
    } else {
      OwedPartByPart(a[1..], b, answered);
      assert (a + b)[1..] == a[1..] + b && (a + b)[0] == a[0];
      UnansweredFirst(a, answered);
      UnansweredFirst(a + b, answered);
      hide Unanswered;
      Reassociate(if a[0].id in answered then [] else [a[0].id], Unanswered(a[1..], answered), Unanswered(b, answered));
    }
  }

  // ── Every call is answered ────────────────────────────────────────────────

  ghost predicate AllAnswered(messages: seq<Message>, answered: set<string>) {
    forall m, c :: m in messages && m.body.Tool? && c in m.body.calls ==> c.id in answered
  }

  /** Some message of the transcript answers the call. */
  ghost predicate HasResult(messages: seq<Message>, id: string) {
    exists i :: 0 <= i < |messages| && messages[i].toolCallId == Some(id)
  }

  ghost predicate EveryCallHasResult(messages: seq<Message>) {
    forall m, c :: m in messages && m.body.Tool? && c in m.body.calls ==> HasResult(messages, c.id)
  }

  lemma {:induction false} AnsweredIsResult(messages: seq<Message>)
    ensures AllAnswered(messages, Answered(messages)) <==> EveryCallHasResult(messages)
  {
    forall id
      ensures id in Answered(messages) <==> HasResult(messages, id)
    {
      InAnswered(messages, id);
    }
  }

  lemma {:induction false} InAnswered(messages: seq<Message>, id: string)
    ensures id in Answered(messages) <==> HasResult(messages, id)
  {
    if id in Answered(messages) {
      var r :| r in messages && r.toolCallId == Some(id);
      var i :| 0 <= i < |messages| && messages[i] == r;
    }
  }

  /** Whatever stands in the repaired transcript and not in the original is a tool's result
      that says that the session ended before a call ran, to a call of the transcript that
      had no result. */
  lemma {:induction false} StandInsSayWhy(messages: seq<Message>, x: Message)
    requires x in Repaired(messages) && x !in messages
    ensures x.toolCallId.Some? && !HasResult(messages, x.toolCallId.value)
    ensures x.role == "tool" && x.body == Content("interrupted: the session ended before this ran")
    ensures exists m, c :: m in messages && m.body.Tool? && c in m.body.calls && c.id == x.toolCallId.value
  {
    OnlyOriginalsAndOwed(messages, Answered(messages), x);
    var m :| m in messages && x in Owed(m, Answered(messages));
    var ids := Unanswered(m.body.calls, Answered(messages));
    var i :| 0 <= i < |ids| && Results(ids)[i] == x;
    OwedInCallOrder(m.body.calls, Answered(messages));
    assert ids[i] in ids;
    InAnswered(messages, ids[i]);
  }

  /** Everything in the repaired transcript is an original or a result owed to one. */
  lemma {:induction false} OnlyOriginalsAndOwed(messages: seq<Message>, answered: set<string>, x: Message)
    requires x in RepairedWith(messages, answered)
    ensures x in messages || exists m :: m in messages && x in Owed(m, answered)
  {
    if messages != [] {
      if x == messages[0] {
      } else if x in Owed(messages[0], answered) {
        assert messages[0] in messages;
      } else {
        OnlyOriginalsAndOwed(messages[1..], answered, x);
      }
    }
  }

  lemma {:induction false} KeepsOriginalsAndOwed(messages: seq<Message>, answered: set<string>, m: Message)
    requires m in messages
    ensures m in RepairedWith(messages, answered)
    ensures forall x :: x in Owed(m, answered) ==> x in RepairedWith(messages, answered)
  {
    if m != messages[0] {
      KeepsOriginalsAndOwed(messages[1..], answered, m);
    }
  }

  /** After the repair every call of the transcript is answered by some result. */
  lemma {:induction false} EveryCallAnswered(messages: seq<Message>)
    ensures AllAnswered(Repaired(messages), Answered(Repaired(messages)))
    ensures EveryCallHasResult(Repaired(messages))
  {
    AnsweredIsResult(Repaired(messages));
    var answered, out := Answered(messages), Repaired(messages);
    forall m, c | m in out && m.body.Tool? && c in m.body.calls
      ensures c.id in Answered(out)
    {
      OnlyOriginalsAndOwed(messages, answered, m);
      CallAnswered(messages, m, c);
    }
  }

  lemma {:induction false} CallAnswered(messages: seq<Message>, m: Message, c: Call)
    requires m in messages && m.body.Tool? && c in m.body.calls
    ensures c.id in Answered(Repaired(messages))
  {
    var answered, out := Answered(messages), Repaired(messages);
    if c.id in answered {
      var r :| r in messages && r.toolCallId == Some(c.id);
      KeepsOriginalsAndOwed(messages, answered, r);
    } else {
      OwedInCallOrder(m.body.calls, answered);
      var ids := Unanswered(m.body.calls, answered);
      var i :| 0 <= i < |ids| && ids[i] == c.id;
      assert Results(ids)[i] == ResultFor(c.id);
      KeepsOriginalsAndOwed(messages, answered, m);
      assert ResultFor(c.id) in out;
    }
  }

  lemma {:induction false} NothingOwed(messages: seq<Message>, answered: set<string>)
    ensures RepairedWith(messages, answered) == messages <==> AllAnswered(messages, answered)
    ensures |RepairedWith(messages, answered)| >= |messages|
  {
    if messages != [] {
      var m, rest := messages[0], messages[1..];
      NothingOwed(rest, answered);
      if m.body.Tool? {
        OwedInCallOrder(m.body.calls, answered);
        assert Unanswered(m.body.calls, answered) == [] ==> forall c :: c in m.body.calls ==> c.id in answered;
        if Unanswered(m.body.calls, answered) != [] {
          assert Unanswered(m.body.calls, answered)[0] in Unanswered(m.body.calls, answered);
        }
      }
      assert forall x :: x in messages <==> x == m || x in rest;
      if Owed(m, answered) == [] {
        assert RepairedWith(messages, answered) == [m] + RepairedWith(rest, answered);
        assert RepairedWith(messages, answered)[1..] == RepairedWith(rest, answered);
        assert messages == [m] + rest;
      } else {
        assert |RepairedWith(messages, answered)| > |messages|;
      }
    }
  }

  /** A transcript is left alone exactly when every call in it was answered. */
  lemma {:induction false} UnchangedExactlyWhenAnswered(messages: seq<Message>)
    ensures Repaired(messages) == messages <==> EveryCallHasResult(messages)
  {
    AnsweredIsResult(messages);
    NothingOwed(messages, Answered(messages));
  }

  /** Repairing again changes nothing. */
  lemma {:induction false} Idempotent(messages: seq<Message>)
    ensures Repaired(Repaired(messages)) == Repaired(messages)
  {
    EveryCallAnswered(messages);
    NothingOwed(Repaired(messages), Answered(Repaired(messages)));
  }
}
