/** The run loop of src/api/agent.rs: turns and tool rounds under budgets, with messages
    steered in from outside at the step boundaries. */
module AgentLoop {
  import opened Wrappers
  import opened AgentModel
  import opened AgentRound

  const U32_MAX: nat := 0xffff_ffff

  type U32 = n: nat | n <= U32_MAX

  datatype Steer = Steer(message: string, interrupt: bool)

  /** A turn of the model: its text, the calls it asks for, and what it cost. */
  datatype Turn = Turn(text: string, calls: seq<Call>, decodeTokens: U32)

  datatype Budget = Steps | Deadline | Tokens

  /** How a run ends: also by a turn whose generation fails, or one that should shape the
      answer and fails. */
  datatype End =
    | OutOfBudget(budget: Budget)
    | Finished(text: string)
    | CalledInCircles(tool: string)
    | Failed(tool: string, error: ToolError)
    | Broken(reason: string)
    | Unshaped(reason: string)

  datatype Budgets = Budgets(maxSteps: nat, maxTokens: Option<U32>)

  /** The steering handle: messages wait in a queue until a boundary. */
  class Steering {
    var queue: seq<Steer>
    /** Everything ever pushed, and everything ever handed over. */
    ghost var pushed: seq<Steer>
    ghost var delivered: seq<Steer>

    ghost predicate Valid()
      reads this
    {
      pushed == delivered + queue
    }

    constructor ()
      ensures Valid() && queue == [] && pushed == [] && delivered == []
    {
      queue, pushed, delivered := [], [], [];
    }

    method Push(steer: Steer)
      requires Valid()
      modifies this
      ensures Valid() && pushed == old(pushed) + [steer] && queue == old(queue) + [steer] && delivered == old(delivered)
    {
      queue, pushed := queue + [steer], pushed + [steer];
    }

    method PushAll(steers: seq<Steer>)
      requires Valid()
      modifies this
      ensures Valid() && pushed == old(pushed) + steers && queue == old(queue) + steers && delivered == old(delivered)
    {
      for i := 0 to |steers|
        invariant Valid() && pushed == old(pushed) + steers[..i] && queue == old(queue) + steers[..i] && delivered == old(delivered)
      {
        Push(steers[i]);
        assert steers[..i + 1] == steers[..i] + [steers[i]];
      }
      assert steers[..|steers|] == steers;
    }

    /** Hand over everything that waits, in the order it was pushed. */
    method Drain() returns (steers: seq<Steer>)
      requires Valid()
      modifies this
      ensures Valid() && queue == [] && pushed == old(pushed)
      ensures steers == old(queue) && delivered == old(delivered) + steers
    {
      steers := queue;
      delivered := delivered + queue;
      queue := [];
      assert delivered + [] == delivered;
    }
  }

  predicate WantsInterrupt(queue: seq<Steer>) {
    exists i :: 0 <= i < |queue| && queue[i].interrupt
  }

  // ── Specifications of a run ───────────────────────────────────────────────

  /** The tokens of the first `n` turns. */
  function Spent(turns: nat -> Turn, n: nat): nat {
    if n == 0 then 0 else Spent(turns, n - 1) + turns(n - 1).decodeTokens
  }

  function UserTexts(messages: seq<Message>): seq<string> {
    if messages == [] then []
    else UserTexts(messages[..|messages| - 1]) + (if messages[|messages| - 1].User? then [messages[|messages| - 1].text] else [])
  }

  function Texts(steers: seq<Steer>): seq<string> {
    seq(|steers|, i requires 0 <= i < |steers| => steers[i].message)
  }

  lemma {:induction false} UserTextsOfTwo(a: seq<Message>, b: seq<Message>)
    ensures UserTexts(a + b) == UserTexts(a) + UserTexts(b)
    decreases |b|
  {
    if b == [] {
      assert a + b == a;
    } else {
      var most, last := b[..|b| - 1], b[|b| - 1];
      UserTextsOfTwo(a, most);
      assert (a + b)[..|a + b| - 1] == a + most && (a + b)[|a + b| - 1] == last;
      var said := if last.User? then [last.text] else [];
      assert UserTexts(a + b) == UserTexts(a + most) + said;
      assert (UserTexts(a) + UserTexts(most)) + said == UserTexts(a) + (UserTexts(most) + said);
    }
  }

  lemma {:induction false} NoUsers(messages: seq<Message>)
    requires forall i :: 0 <= i < |messages| ==> !messages[i].User?
    ensures UserTexts(messages) == []
  {
    if messages != [] {
      NoUsers(messages[..|messages| - 1]);
    }
  }

  lemma {:induction false} ResultsAreNoUsers(calls: seq<Call>, answers: seq<Answer>)
    requires |answers| <= |calls|
    ensures UserTexts([AskedFor(calls)] + ResultsOf(calls, answers)) == []
  {
    ResultsAnswerAPrefix(calls, answers);
    var results := ResultsOf(calls, answers);
    forall i | 0 <= i < |results|
      ensures !results[i].User?
    {
      assert results[i] == ResultMessage(calls[i], Told(answers[i]).value);
    }
    NoUsers([AskedFor(calls)] + results);
  }

  lemma {:induction false} RoundAddsNoUser(before: seq<Message>, calls: seq<Call>, answers: seq<Answer>)
    requires |answers| <= |calls|
    ensures UserTexts(before + [AskedFor(calls)] + ResultsOf(calls, answers)) == UserTexts(before)
    ensures before + [AskedFor(calls)] + ResultsOf(calls, []) == before + [AskedFor(calls)]
  {
    var added := [AskedFor(calls)] + ResultsOf(calls, answers);
    assert before + [AskedFor(calls)] + ResultsOf(calls, answers) == before + added;
    ResultsAreNoUsers(calls, answers);
    UserTextsOfTwo(before, added);
    assert UserTexts(before) + [] == UserTexts(before);
  }

  /** The run's counter of tokens, which wraps at 32 bits. */
  function Counted(turns: nat -> Turn, n: nat): U32 {
    Spent(turns, n) % (U32_MAX + 1)
  }

  /** By the counter, the token budget was not used up after any of the first `n` turns. */
  ghost predicate Under(limit: Option<U32>, turns: nat -> Turn, n: nat) {
    limit.Some? ==> forall k: nat :: 0 < k <= n ==> Counted(turns, k) < limit.value
  }

  /** What is true of the budgets when a run ends after `used` turns: by the counter the
      token budget is used up by the last of them or by none, no more than `maxSteps`
      were made, and none was begun past the deadline. */
  ghost predicate WithinBudgets(budgets: Budgets, turns: nat -> Turn, late: nat -> bool, used: nat, end: End) {
    && used <= budgets.maxSteps
    && (forall k: nat :: k < used ==> !late(k))
    && (end == OutOfBudget(Deadline) ==> late(used))
    && (end == OutOfBudget(Steps) ==> used == budgets.maxSteps)
    && if end == OutOfBudget(Tokens)
       then used > 0 && budgets.maxTokens.Some? && Counted(turns, used) >= budgets.maxTokens.value
            && Under(budgets.maxTokens, turns, used - 1)
       else Under(budgets.maxTokens, turns, used)
  }

  lemma {:induction false} NoTurns(limit: Option<U32>, turns: nat -> Turn)
    ensures Counted(turns, 0) == 0 && Under(limit, turns, 0)
  {}

  lemma {:induction false} OneMoreTurn(limit: Option<U32>, turns: nat -> Turn, n: nat)
    requires Under(limit, turns, n)
    ensures Counted(turns, n + 1) == (Counted(turns, n) + turns(n).decodeTokens) % (U32_MAX + 1)
    ensures (limit.Some? && Counted(turns, n + 1) >= limit.value) || Under(limit, turns, n + 1)
  {
    hide Spent, Counted;
    CountsOneMore(turns, n);
  }

  lemma {:induction false} CountsOneMore(turns: nat -> Turn, n: nat)
    ensures Counted(turns, n + 1) == (Counted(turns, n) + turns(n).decodeTokens) % (U32_MAX + 1)
  {
    WrapsAlong(Spent(turns, n), turns(n).decodeTokens);
  }

  lemma {:induction false} WrapsAlong(x: nat, d: nat)
    ensures (x + d) % (U32_MAX + 1) == (x % (U32_MAX + 1) + d) % (U32_MAX + 1)
  {}

  lemma {:induction false} EndsWithin(budgets: Budgets, turns: nat -> Turn, late: nat -> bool, used: nat, end: End)
    requires used <= budgets.maxSteps && forall k: nat :: k < used ==> !late(k)
    requires end == OutOfBudget(Deadline) ==> late(used)
    requires end == OutOfBudget(Steps) ==> used == budgets.maxSteps
    requires end == OutOfBudget(Tokens) ==>
               used > 0 && budgets.maxTokens.Some? && Counted(turns, used) >= budgets.maxTokens.value
               && Under(budgets.maxTokens, turns, used - 1)
    requires end != OutOfBudget(Tokens) ==> Under(budgets.maxTokens, turns, used)
    ensures WithinBudgets(budgets, turns, late, used, end)
  {}

  lemma {:induction false} SpentGrows(turns: nat -> Turn, k: nat, n: nat)
    requires k <= n
    ensures Spent(turns, k) <= Spent(turns, n)
  {
    if k < n {
      SpentGrows(turns, k, n - 1);
    }
  }

  /** A run that its counter finds under the budget is under it, after every turn,
      exactly when the tokens fit 32 bits. */
  lemma {:induction false} BudgetHoldsExactly(limit: U32, turns: nat -> Turn, n: nat)
    requires Under(Some(limit), turns, n) && n > 0
    ensures (forall k: nat :: 0 < k <= n ==> Spent(turns, k) < limit) <==> Spent(turns, n) <= U32_MAX
  {
    if Spent(turns, n) <= U32_MAX {
      forall k: nat | 0 < k <= n
        ensures Spent(turns, k) < limit
      {
        SpentGrows(turns, k, n);
        assert Counted(turns, k) == Spent(turns, k);
      }
    }
  }

  /** With the counter wrapped, a run goes on past any budget above 2 to the 31: two turns
      of so many tokens are counted as none. */
  lemma {:induction false} WrapPassesBudget(limit: U32, turns: nat -> Turn)
    requires limit > 0x8000_0000
    requires turns(0).decodeTokens == turns(1).decodeTokens == 0x8000_0000
    ensures Under(Some(limit), turns, 2) && Spent(turns, 2) > limit
  {
    assert Spent(turns, 1) == 0x8000_0000 && Spent(turns, 2) == 0x1_0000_0000;
    assert Counted(turns, 1) == 0x8000_0000 && Counted(turns, 2) == 0;
  }

  /** Everything that has arrived in a round by the check at call `i`. */
  function ArrivedBy(arrives: nat -> seq<Steer>, i: nat): seq<Steer> {
    if i == 0 then [] else ArrivedBy(arrives, i - 1) + arrives(i - 1)
  }

  /** What arrives during the calls of step `k`. */
  function During(arrives: (nat, nat) -> seq<Steer>, k: nat): nat -> seq<Steer> {
    (i: nat) => arrives(k, i + 1)
  }

  /** Everything that arrives in the first `n` steps: while the model writes, and then
      during each call. */
  function Arrived(turns: nat -> Turn, arrives: (nat, nat) -> seq<Steer>, n: nat): seq<Steer> {
    if n == 0 then []
    else Arrived(turns, arrives, n - 1) + arrives(n - 1, 0) + ArrivedBy(During(arrives, n - 1), |turns(n - 1).calls|)
  }

  /** What the model, the clock and the user do in a run: the turns it generates, the
      errors it breaks at instead, whether the deadline has passed before a step, what is
      steered in while a step runs, and how shaping the answer comes out. */
  datatype Course = Course(turns: nat -> Turn, breaks: nat -> Option<string>, late: nat -> bool,
                           arrives: (nat, nat) -> seq<Steer>, shaping: Shaping)

  datatype Shaping = Shaping(text: Result<string, string>, arrives: seq<Steer>)

  /** The run took the turn that shapes the answer. */
  predicate WasShaped(answerAs: Option<string>, end: End) {
    answerAs.Some? && (end.Finished? || end.Unshaped?)
  }

  /** What arrives in one step; a turn that is cut short runs no calls. */
  function ArrivedInStep(course: Course, k: nat, cut: bool): seq<Steer> {
    course.arrives(k, 0) + if cut then [] else ArrivedBy(During(course.arrives, k), |course.turns(k).calls|)
  }

  /** What has arrived by the end of a run: no call is run of a turn that breaks or uses up
      the token budget. */
  function ArrivedInRun(course: Course, answerAs: Option<string>, used: nat, end: End): seq<Steer> {
    if end == OutOfBudget(Tokens) && used > 0
    then Arrived(course.turns, course.arrives, used - 1) + course.arrives(used - 1, 0)
    else Arrived(course.turns, course.arrives, used)
         + (if end.Broken? then course.arrives(used, 0) else if WasShaped(answerAs, end) then course.shaping.arrives else [])
  }

  // ── The whole run ─────────────────────────────────────────────────────────

  /** Where a run stands between two steps. */
  datatype Situation<!W> = Situation(env: Env<W>, history: seq<Key>, messages: seq<Message>, queue: seq<Steer>)

  datatype Outcome<!W> = Outcome(end: End, used: nat, left: Situation<W>)

  datatype Rounded<!W> = Rounded(end: RoundEnd, left: Situation<W>)

  function Users(steers: seq<Steer>): seq<Message> {
    seq(|steers|, i requires 0 <= i < |steers| => User(steers[i].message))
  }

  /** Whether an interruption is seen at a call. */
  function Interrupts(queue: seq<Steer>, arrives: nat -> seq<Steer>): nat -> bool {
    (i: nat) => WantsInterrupt(queue + ArrivedBy(arrives, i))
  }

  /** A round with its calls dispatched one by one. */
  function RoundOf<W>(setup: Setup<W>, s: Situation<W>, calls: seq<Call>, arrives: nat -> seq<Steer>): Rounded<W> {
    var stop := StopOf(s.history, calls, Interrupts(s.queue, arrives), 0);
    var env0 := s.env.(ran := multiset{});
    var asked := s.messages + [AskedFor(calls)];
    var queue := s.queue + ArrivedBy(arrives, |calls|);
    match stop
    case Circles(n) =>
      Rounded(GaveUp(calls[n].name),
              Situation(AgentModel.After(setup, env0, calls, BatchStart(setup, calls, n)), s.history + Keys(calls[..n + 1]), asked, queue))
    case Through(n, _) =>
      var answers := Answers(setup, env0, calls, n);
      Rounded(EndOf(calls, answers),
              Situation(AgentModel.After(setup, env0, calls, n), s.history + Keys(calls[..n]), asked + ResultsOf(calls, answers), queue))
  }

  /** Nothing waits and no call is left to make: the answer stands, or is shaped by one
      more turn. */
  function Answered<W>(answerAs: Option<string>, shaping: Shaping, text: string, used: nat, s: Situation<W>): Outcome<W> {
    if answerAs.None? then Outcome(Finished(text), used, s)
    else
      var told := s.(messages := s.messages + [User(answerAs.value)], queue := s.queue + shaping.arrives);
      match shaping.text
      case Ok(shaped) => Outcome(Finished(shaped), used, told.(messages := told.messages + [Assistant(shaped)]))
      case Err(e) => Outcome(Unshaped(e), used, told)
  }

  datatype Stepped<!W> = GoesOn(left: Situation<W>) | Over(outcome: Outcome<W>)

  /** One step, every call dispatched one by one. */
  function StepOf<W>(setup: Setup<W>, budgets: Budgets, course: Course, k: nat, s: Situation<W>): Stepped<W> {
    var turn := course.turns(k);
    var heard := s.(messages := s.messages + Users(s.queue), queue := course.arrives(k, 0));
    if course.breaks(k).Some? then Over(Outcome(Broken(course.breaks(k).value), k, heard))
    else if budgets.maxTokens.Some? && Counted(course.turns, k + 1) >= budgets.maxTokens.value
    then Over(Outcome(OutOfBudget(Tokens), k + 1, heard))
    else if turn.calls == [] then
      var said := heard.(messages := heard.messages + [Assistant(turn.text)]);
      if said.queue == [] then Over(Outcome(Finished(turn.text), k + 1, said)) else GoesOn(said)
    else
      var round := RoundOf(setup, heard, turn.calls, During(course.arrives, k));
      match round.end
      case GaveUp(tool) => Over(Outcome(CalledInCircles(tool), k + 1, round.left))
      case Fails(tool, error) => Over(Outcome(Failed(tool, error), k + 1, round.left))
      case Continues => GoesOn(round.left)
  }

  /** The steps from `k` on. */
  function StepsOf<W>(setup: Setup<W>, budgets: Budgets, course: Course, k: nat, s: Situation<W>): Outcome<W>
    requires k <= budgets.maxSteps
    decreases budgets.maxSteps - k
  {
    if k == budgets.maxSteps then Outcome(OutOfBudget(Steps), k, s)
    else if course.late(k) then Outcome(OutOfBudget(Deadline), k, s)
    else
      match StepOf(setup, budgets, course, k, s)
      case GoesOn(left) => StepsOf(setup, budgets, course, k + 1, left)
      case Over(outcome) => outcome
  }

  /** A whole run. */
  function RunOf<W>(setup: Setup<W>, budgets: Budgets, answerAs: Option<string>, course: Course, s: Situation<W>): Outcome<W> {
    var outcome := StepsOf(setup, budgets, course, 0, s);
    if outcome.end.Finished? then Answered(answerAs, course.shaping, outcome.end.text, outcome.used, outcome.left) else outcome
  }

  // ── Why a run ends, and what it leaves ────────────────────────────────────

  lemma {:induction false} RoundCircles<W>(setup: Setup<W>, s: Situation<W>, calls: seq<Call>, arrives: nat -> seq<Steer>)
    requires !Repeats(s.history)
    ensures var round := RoundOf(setup, s, calls, arrives);
            && (round.end.GaveUp? <==> Repeats(round.left.history))
            && (round.end.GaveUp? ==>
                  round.left.history != [] && round.left.history[|round.left.history| - 1].name == round.end.tool)
  {
    hide AgentModel.After, Answers, ResultsOf, Interrupts, ArrivedBy;
    var interrupt := Interrupts(s.queue, arrives);
    var stop := StopOf(s.history, calls, interrupt, 0);
    StopsAtFirst(s.history, calls, interrupt, 0);
    if stop.Through? {
      if stop.n == 0 {
        assert s.history + Keys(calls[..0]) == s.history;
      } else {
        assert AgentModel.GoesOn(s.history, calls, interrupt, stop.n - 1);
      }
    }
  }

  predicate IsCalled(calls: seq<Call>, tool: string) {
    exists i :: 0 <= i < |calls| && calls[i].name == tool
  }

  /** The transcript only grows in a round, and one that fails does so at a call of its own,
      by an error the model cannot mend. */
  lemma {:induction false} RoundFails<W>(setup: Setup<W>, s: Situation<W>, calls: seq<Call>, arrives: nat -> seq<Steer>)
    ensures var round := RoundOf(setup, s, calls, arrives);
            && s.messages <= round.left.messages
            && (round.end.Fails? ==>
                  !Actionable(round.end.error) && IsCalled(calls, round.end.tool))
  {
    hide AgentModel.After, ResultsOf, Interrupts, ArrivedBy, StopOf, Keys, AnswerAt, FirstFatal, BatchStart;
    var stop := StopOf(s.history, calls, Interrupts(s.queue, arrives), 0);
    if stop.Through? {
      var answers := Answers(setup, s.env.(ran := multiset{}), calls, stop.n);
      FatalIsError(answers);
    }
  }

  /** Why a run over `history` ended in `o`: in circles exactly when the last three calls of
      the run are one and the same, and for a failure only when a call of the last turn
      failed in a way the model cannot mend. */
  ghost predicate Explained<W>(course: Course, o: Outcome<W>) {
    && (o.end.CalledInCircles? <==> Repeats(o.left.history))
    && (o.end.CalledInCircles? ==> o.left.history[|o.left.history| - 1].name == o.end.tool)
    && (o.end.Failed? ==>
          && !Actionable(o.end.error) && o.used > 0 && IsCalled(course.turns(o.used - 1).calls, o.end.tool))
    && (o.end.Broken? ==> course.breaks(o.used) == Some(o.end.reason))
  }

  lemma {:induction false} StepExplained<W>(setup: Setup<W>, budgets: Budgets, course: Course, k: nat, s: Situation<W>)
    requires !Repeats(s.history)
    ensures match StepOf(setup, budgets, course, k, s)
            case GoesOn(left) => s.messages <= left.messages && !Repeats(left.history)
            case Over(o) => s.messages <= o.left.messages && Explained(course, o) && !o.end.Unshaped?
  {
    hide Repeats, RoundOf, Users, Counted, During;
    var turn := course.turns(k);
    var heard := s.(messages := s.messages + Users(s.queue), queue := course.arrives(k, 0));
    RoundCircles(setup, heard, turn.calls, During(course.arrives, k));
    RoundFails(setup, heard, turn.calls, During(course.arrives, k));
  }

  lemma {:induction false} StepsExplained<W>(setup: Setup<W>, budgets: Budgets, course: Course, k: nat, s: Situation<W>)
    requires k <= budgets.maxSteps && !Repeats(s.history)
    ensures var o := StepsOf(setup, budgets, course, k, s);
            s.messages <= o.left.messages && Explained(course, o) && !o.end.Unshaped?
    decreases budgets.maxSteps - k
  {
    hide Repeats, StepOf;
    if k < budgets.maxSteps && !course.late(k) {
      StepExplained(setup, budgets, course, k, s);
      match StepOf(setup, budgets, course, k, s)
      case GoesOn(left) => StepsExplained(setup, budgets, course, k + 1, left);
      case Over(_) =>
    }
  }

  /** A run never takes anything back from the transcript, and ends for the reason it
      gives. */
  lemma {:induction false} EndsForAReason<W>(setup: Setup<W>, budgets: Budgets, answerAs: Option<string>, course: Course, s: Situation<W>)
    requires s.history == []
    ensures var o := RunOf(setup, budgets, answerAs, course, s);
            && s.messages <= o.left.messages && Explained(course, o)
            && (o.end.Unshaped? ==> answerAs.Some? && course.shaping.text == Err(o.end.reason))
  {
    assert !Repeats([]);
    hide Repeats, StepsOf;
    StepsExplained(setup, budgets, course, 0, s);
  }

  // ── When a run must end, and what it writes ───────────────────────────────

  /** What is waiting at call `i` of a round. */
  function WaitingAt(queue: seq<Steer>, arrives: nat -> seq<Steer>, i: nat): seq<Steer> {
    queue + ArrivedBy(arrives, i)
  }

  /** A round takes its calls up to the first at which a steer that interrupts is waiting,
      if there is one, and otherwise all of them or up to one too many of its kind. */
  lemma {:induction false} RoundCutShort<W>(setup: Setup<W>, s: Situation<W>, calls: seq<Call>, arrives: nat -> seq<Steer>)
    ensures var round := RoundOf(setup, s, calls, arrives);
            var taken := |round.left.history| - |s.history|;
            && 0 <= taken <= |calls| && round.left.history == s.history + Keys(calls[..taken])
            && (forall i, j :: 0 <= i < taken && 0 <= j < |WaitingAt(s.queue, arrives, i)| ==>
                  !WaitingAt(s.queue, arrives, i)[j].interrupt)
            && (taken < |calls| ==>
                  || round.end.GaveUp?
                  || exists j :: 0 <= j < |WaitingAt(s.queue, arrives, taken)| && WaitingAt(s.queue, arrives, taken)[j].interrupt)
  {
    hide AgentModel.After, Answers, ResultsOf, ArrivedBy, Repeats, EndOf, BatchStart, AskedFor;
    var interrupt := Interrupts(s.queue, arrives);
    var stop := StopOf(s.history, calls, interrupt, 0);
    StopsAtFirst(s.history, calls, interrupt, 0);
    var taken := if stop.Circles? then stop.n + 1 else stop.n;
    forall i: nat | i < taken
      ensures !interrupt(i)
    {
      assert i < stop.n ==> AgentModel.GoesOn(s.history, calls, interrupt, i);
    }
    forall i: nat
      ensures interrupt(i) == WantsInterrupt(WaitingAt(s.queue, arrives, i))
    {}
    var round := RoundOf(setup, s, calls, arrives);
    assert round.left.history == s.history + Keys(calls[..taken]) && |Keys(calls[..taken])| == taken;
    assert stop.Circles? ==> round.end.GaveUp?;
  }

  /** A step with calls is decided by its round: a failure the model cannot mend ends the
      run there, and so does one call too many of a kind; otherwise the run goes on. */
  lemma {:induction false} RoundDecides<W>(setup: Setup<W>, budgets: Budgets, course: Course, k: nat, s: Situation<W>)
    requires k < budgets.maxSteps && !course.late(k) && course.breaks(k).None? && course.turns(k).calls != []
    requires budgets.maxTokens.Some? ==> Counted(course.turns, k + 1) < budgets.maxTokens.value
    ensures var heard := Situation(s.env, s.history, s.messages + Users(s.queue), course.arrives(k, 0));
            var round := RoundOf(setup, heard, course.turns(k).calls, During(course.arrives, k));
            StepsOf(setup, budgets, course, k, s)
            == match round.end
               case Fails(tool, error) => Outcome(Failed(tool, error), k + 1, round.left)
               case GaveUp(tool) => Outcome(CalledInCircles(tool), k + 1, round.left)
               case Continues => StepsOf(setup, budgets, course, k + 1, round.left)
  {
    hide RoundOf, During, Users, Counted;
  }

  /** A step without calls puts what waited before what the model answers, and behind both
      nothing; the run is done, unless something was steered in meanwhile. */
  lemma {:induction false} AnswerDecides<W>(setup: Setup<W>, budgets: Budgets, course: Course, k: nat, s: Situation<W>)
    requires k < budgets.maxSteps && !course.late(k) && course.breaks(k).None? && course.turns(k).calls == []
    requires budgets.maxTokens.Some? ==> Counted(course.turns, k + 1) < budgets.maxTokens.value
    ensures var text := course.turns(k).text;
            var said := Situation(s.env, s.history, s.messages + Users(s.queue) + [Assistant(text)], course.arrives(k, 0));
            StepsOf(setup, budgets, course, k, s)
            == if course.arrives(k, 0) == [] then Outcome(Finished(text), k + 1, said)
               else StepsOf(setup, budgets, course, k + 1, said)
    ensures |Users(s.queue)| == |s.queue| && forall i :: 0 <= i < |s.queue| ==> Users(s.queue)[i] == User(s.queue[i].message)
  {
    hide RoundOf, During, Counted;
  }

  /** A turn without calls, with nothing steered in meanwhile, is the last of the run, and
      so is one whose generation breaks; of a run with `answerAs` the answer may still be
      shaped. */
  ghost predicate EndsWhenDone(course: Course, from: nat, used: nat, end: End) {
    && (forall k: nat :: from <= k < used ==> course.breaks(k).None?)
    && (forall k: nat :: from <= k < used && course.turns(k).calls == [] && course.arrives(k, 0) == [] ==>
          used == k + 1 && (end.Finished? || end.Unshaped? || end == OutOfBudget(Tokens)))
  }

  lemma {:induction false} StepsEndWhenDone<W>(setup: Setup<W>, budgets: Budgets, course: Course, k: nat, s: Situation<W>)
    requires k <= budgets.maxSteps
    ensures var o := StepsOf(setup, budgets, course, k, s); k <= o.used && EndsWhenDone(course, k, o.used, o.end)
    decreases budgets.maxSteps - k
  {
    hide RoundOf, During, Users, Counted;
    if k < budgets.maxSteps && !course.late(k) {
      match StepOf(setup, budgets, course, k, s)
      case GoesOn(left) => StepsEndWhenDone(setup, budgets, course, k + 1, left);
      case Over(_) =>
    }
  }

  /** The messages the model wrote: its answers and its requests. */
  function Written(messages: seq<Message>): seq<Message> {
    if messages == [] then []
    else
      var last := messages[|messages| - 1];
      Written(messages[..|messages| - 1]) + if last.Assistant? || last.Asked? then [last] else []
  }

  /** What the model writes in turns `from` to `to`. */
  function WrittenInTurns(turns: nat -> Turn, from: nat, to: nat): seq<Message>
    requires from <= to
  {
    if from == to then []
    else
      var last := turns(to - 1);
      WrittenInTurns(turns, from, to - 1) + [if last.calls == [] then Assistant(last.text) else AskedFor(last.calls)]
  }

  lemma {:induction false} WrittenOfTwo(a: seq<Message>, b: seq<Message>)
    ensures Written(a + b) == Written(a) + Written(b)
    decreases |b|
  {
    if b == [] {
      assert a + b == a;
      assert Written(a) + [] == Written(a);
    } else {
      var most, last := b[..|b| - 1], b[|b| - 1];
      WrittenOfTwo(a, most);
      assert (a + b)[..|a + b| - 1] == a + most && (a + b)[|a + b| - 1] == last;
      Reassociate(Written(a), Written(most), if last.Assistant? || last.Asked? then [last] else []);
    }
  }

  lemma {:induction false} NothingWritten(messages: seq<Message>)
    requires forall i :: 0 <= i < |messages| ==> !messages[i].Assistant? && !messages[i].Asked?
    ensures Written(messages) == []
  {
    if messages != [] {
      NothingWritten(messages[..|messages| - 1]);
    }
  }

  lemma {:induction false} OneWritten(messages: seq<Message>, message: Message)
    ensures Written(messages + [message]) == Written(messages) + if message.Assistant? || message.Asked? then [message] else []
  {
    assert (messages + [message])[..|messages|] == messages;
  }

  lemma {:induction false} HeardWritten(messages: seq<Message>, steers: seq<Steer>)
    ensures Written(messages + Users(steers)) == Written(messages)
  {
    NothingWritten(Users(steers));
    WrittenOfTwo(messages, Users(steers));
    assert Written(messages) + [] == Written(messages);
  }

  lemma {:induction false} RoundWritten<W>(setup: Setup<W>, s: Situation<W>, calls: seq<Call>, arrives: nat -> seq<Steer>)
    ensures Written(RoundOf(setup, s, calls, arrives).left.messages) == Written(s.messages) + [AskedFor(calls)]
  {
    hide AgentModel.After, AnswerAt, ResultsOf, ArrivedBy, StopOf, EndOf, BatchStart, Keys, Written;
    var stop := StopOf(s.history, calls, Interrupts(s.queue, arrives), 0);
    OneWritten(s.messages, AskedFor(calls));
    if stop.Through? {
      var answers := Answers(setup, s.env.(ran := multiset{}), calls, stop.n);
      ResultsAnswerAPrefix(calls, answers);
      NothingWritten(ResultsOf(calls, answers));
      WrittenOfTwo(s.messages + [AskedFor(calls)], ResultsOf(calls, answers));
      assert (Written(s.messages) + [AskedFor(calls)]) + [] == Written(s.messages) + [AskedFor(calls)];
    }
  }

  /** The last turn does not count when it used up the tokens. */
  function TurnsKept(used: nat, end: End): nat {
    if end == OutOfBudget(Tokens) && used > 0 then used - 1 else used
  }

  lemma {:induction false} StepWritten<W>(setup: Setup<W>, budgets: Budgets, course: Course, k: nat, s: Situation<W>)
    ensures var turn := course.turns(k);
            var wrote := [if turn.calls == [] then Assistant(turn.text) else AskedFor(turn.calls)];
            match StepOf(setup, budgets, course, k, s)
            case GoesOn(left) => Written(left.messages) == Written(s.messages) + wrote
            case Over(o) =>
              && (if o.end.Broken? then o.used == k else o.used == k + 1)
              && Written(o.left.messages)
                 == Written(s.messages) + if o.end.Broken? || o.end == OutOfBudget(Tokens) then [] else wrote
  {
    hide RoundOf, During, Users, Counted, Written;
    var turn := course.turns(k);
    var heard := s.(messages := s.messages + Users(s.queue), queue := course.arrives(k, 0));
    HeardWritten(s.messages, s.queue);
    OneWritten(heard.messages, Assistant(turn.text));
    RoundWritten(setup, heard, turn.calls, During(course.arrives, k));
    assert Written(s.messages) + [] == Written(s.messages);
  }

  lemma {:induction false} TurnsFirst(turns: nat -> Turn, from: nat, to: nat)
    requires from < to
    ensures WrittenInTurns(turns, from, to)
            == [if turns(from).calls == [] then Assistant(turns(from).text) else AskedFor(turns(from).calls)]
               + WrittenInTurns(turns, from + 1, to)
  {
    if from + 1 < to {
      TurnsFirst(turns, from, to - 1);
    }
  }

  /** In the transcript stands, in order, what the model wrote in each turn that counted,
      and nothing else of its. */
  lemma {:induction false} StepsWritten<W>(setup: Setup<W>, budgets: Budgets, course: Course, k: nat, s: Situation<W>)
    requires k <= budgets.maxSteps
    ensures var o := StepsOf(setup, budgets, course, k, s);
            && k <= TurnsKept(o.used, o.end)
            && Written(o.left.messages) == Written(s.messages) + WrittenInTurns(course.turns, k, TurnsKept(o.used, o.end))
    decreases budgets.maxSteps - k
  {
    hide StepOf, Written;
    assert Written(s.messages) + [] == Written(s.messages);
    if k < budgets.maxSteps && !course.late(k) {
      StepWritten(setup, budgets, course, k, s);
      match StepOf(setup, budgets, course, k, s)
      case GoesOn(left) =>
        StepsWritten(setup, budgets, course, k + 1, left);
        var o := StepsOf(setup, budgets, course, k + 1, left);
        TurnsFirst(course.turns, k, TurnsKept(o.used, o.end));
        Reassociate(Written(s.messages), [if course.turns(k).calls == [] then Assistant(course.turns(k).text) else AskedFor(course.turns(k).calls)],
                    WrittenInTurns(course.turns, k + 1, TurnsKept(o.used, o.end)));
      case Over(o) =>
        if TurnsKept(o.used, o.end) == k + 1 {
          TurnsFirst(course.turns, k, k + 1);
        }
    }
  }

  lemma {:induction false} AnsweredWritten<W>(answerAs: Option<string>, shaping: Shaping, text: string, used: nat, s: Situation<W>)
    ensures var o := Answered(answerAs, shaping, text, used, s);
            && o.used == used
            && Written(o.left.messages)
               == Written(s.messages) + if answerAs.Some? && o.end.Finished? then [Assistant(o.end.text)] else []
  {
    hide Written;
    assert Written(s.messages) + [] == Written(s.messages);
    if answerAs.Some? {
      OneWritten(s.messages, User(answerAs.value));
      if shaping.text.Ok? {
        OneWritten(s.messages + [User(answerAs.value)], Assistant(shaping.text.value));
      }
    }
  }

  class Runner<W(!new)> {
    const agent: AgentRun<W>
    const steering: Steering
    const budgets: Budgets
    /** The instruction that asks for the answer to be shaped. */
    const answerAs: Option<string>

    constructor (agent: AgentRun<W>, steering: Steering, budgets: Budgets, answerAs: Option<string>)
      ensures this.agent == agent && this.steering == steering && this.budgets == budgets && this.answerAs == answerAs
    {
      this.agent, this.steering, this.budgets, this.answerAs := agent, steering, budgets, answerAs;
    }

    ghost function Now(): Situation<W>
      reads agent, steering
    {
      Situation(agent.env, agent.history, agent.messages, steering.queue)
    }

    /** Deliver what was steered in, at a boundary and never within a round. */
    method Deliver()
      requires steering.Valid() && agent.Valid()
      modifies agent`messages, steering
      ensures steering.Valid() && agent.Valid() && steering.queue == [] && steering.pushed == old(steering.pushed)
      ensures steering.delivered == old(steering.delivered) + old(steering.queue)
      ensures agent.messages == old(agent.messages) + Users(old(steering.queue))
      ensures UserTexts(agent.messages) == UserTexts(old(agent.messages)) + Texts(old(steering.queue))
    {
      hide WellDeclared, LastKeys, UserTexts;
      var steers := steering.Drain();
      for i := 0 to |steers|
        invariant agent.Valid() && steering.Valid() && steering.queue == [] && steering.pushed == old(steering.pushed)
        invariant steering.delivered == old(steering.delivered) + steers
        invariant agent.messages == old(agent.messages) + Users(steers[..i])
        invariant UserTexts(agent.messages) == UserTexts(old(agent.messages)) + Texts(steers[..i])
      {
        var message := User(steers[i].message);
        OneMoreMessage(agent.messages, message);
        agent.messages := agent.messages + [message];
        assert Texts(steers[..i + 1]) == Texts(steers[..i]) + [steers[i].message];
        assert Users(steers[..i + 1]) == Users(steers[..i]) + [message];
      }
      assert steers[..|steers|] == steers;
    }

    /** The model's answer when it calls no tool. */
    method Answer(text: string)
      requires agent.Valid()
      modifies agent`messages
      ensures agent.Valid() && agent.messages == old(agent.messages) + [Assistant(text)]
      ensures UserTexts(agent.messages) == UserTexts(old(agent.messages))
    {
      hide WellDeclared, LastKeys, UserTexts;
      OneMoreMessage(agent.messages, Assistant(text));
      agent.messages := agent.messages + [Assistant(text)];
    }

    /** The work is done: take the answer, or have it shaped in one extra turn. */
    method Shape(shaping: Shaping, text: string, used: nat) returns (end: End)
      requires steering.Valid() && agent.Valid()
      modifies agent`messages, steering
      ensures steering.Valid() && agent.Valid() && steering.delivered == old(steering.delivered)
      ensures end.Finished? || (end.Unshaped? && answerAs.Some?)
      ensures Outcome(end, used, Now()) == Answered(answerAs, shaping, text, used, old(Now()))
      ensures steering.pushed == old(steering.pushed) + if answerAs.Some? then shaping.arrives else []
      ensures UserTexts(agent.messages) == UserTexts(old(agent.messages)) + if answerAs.Some? then [answerAs.value] else []
    {
      hide WellDeclared, LastKeys, UserTexts;
      match answerAs {
        case None => end := Finished(text);
        case Some(instruction) =>
          OneMoreMessage(agent.messages, User(instruction));
          agent.messages := agent.messages + [User(instruction)];
          steering.PushAll(shaping.arrives);
          match shaping.text {
            case Err(e) => end := Unshaped(e);
            case Ok(shaped) =>
              Answer(shaped);
              end := Finished(shaped);
          }
      }
    }

    /** One round of calls, with what arrives while it runs. An interruption is seen at a
        call when one has arrived by then. */
    method Round(calls: seq<Call>, arrives: nat -> seq<Steer>, schedules: nat -> seq<nat>) returns (end: RoundEnd)
      requires steering.Valid() && agent.Valid()
      modifies agent, steering
      ensures steering.Valid() && agent.Valid() && steering.delivered == old(steering.delivered)
      ensures steering.pushed == old(steering.pushed) + ArrivedBy(arrives, |calls|)
      ensures UserTexts(agent.messages) == UserTexts(old(agent.messages))
      ensures Rounded(end, Now()) == RoundOf(agent.setup, old(Now()), calls, arrives)
    {
      hide StopOf, AgentModel.After, UserTexts, ResultsOf, Keys, BatchStart, EndOf, ArrivedBy, WantsInterrupt, WellDeclared, LastKeys;
      var interrupt := Interrupts(steering.queue, arrives);
      ghost var stop := StopOf(agent.history, calls, interrupt, 0);
      ghost var env0 := agent.env.(ran := multiset{});
      ghost var before := agent.messages;
      end := agent.RunRound(calls, interrupt, schedules);
      ghost var answers := if stop.Circles? then [] else Answers(agent.setup, env0, calls, stop.n);
      RoundAddsNoUser(before, calls, answers);
      steering.PushAll(ArrivedBy(arrives, |calls|));
    }

    /** One step behind the checks of budget and deadline: deliver, let the model write, and
        run what it calls. */
    method TakeStep(course: Course, step: nat, spent: U32, schedules: nat -> seq<nat>) returns (ended: Option<End>, counted: U32)
      requires steering.Valid() && agent.Valid() && spent == Counted(course.turns, step)
      modifies agent, steering
      ensures steering.Valid() && agent.Valid()
      ensures StepOf(agent.setup, budgets, course, step, old(Now()))
              == match ended
                 case None => GoesOn(Now())
                 case Some(end) => Over(Outcome(end, if end.Broken? then step else step + 1, Now()))
      ensures steering.pushed
              == old(steering.pushed)
                 + ArrivedInStep(course, step, ended == Some(OutOfBudget(Tokens)) || (ended.Some? && ended.value.Broken?))
      ensures steering.delivered == old(steering.delivered) + old(steering.queue)
      ensures UserTexts(agent.messages) == UserTexts(old(agent.messages)) + Texts(old(steering.queue))
      ensures counted == Counted(course.turns, step + 1)
      ensures ended.Some? ==> !ended.value.Unshaped? && ended.value != OutOfBudget(Steps) && ended.value != OutOfBudget(Deadline)
      ensures !(ended.Some? && ended.value.Broken?) ==>
                (ended == Some(OutOfBudget(Tokens)) <==> budgets.maxTokens.Some? && counted >= budgets.maxTokens.value)
    {
      hide UserTexts, Texts, Counted, WellDeclared, LastKeys, ArrivedBy, RoundOf, Users, During;
      Deliver();
      var turn := course.turns(step);
      steering.PushAll(course.arrives(step, 0));
      CountsOneMore(course.turns, step);
      counted := (spent + turn.decodeTokens) % (U32_MAX + 1);
      if course.breaks(step).Some? {
        return Some(Broken(course.breaks(step).value)), counted;
      }
      if budgets.maxTokens.Some? && counted >= budgets.maxTokens.value {
        return Some(OutOfBudget(Tokens)), counted;
      }
      if turn.calls == [] {
        NothingWithoutCalls(course, step);
        Answer(turn.text);
        return if steering.queue == [] then Some(Finished(turn.text)) else None, counted;
      }
      Reassociate(old(steering.pushed), course.arrives(step, 0), ArrivedBy(During(course.arrives, step), |turn.calls|));
      ghost var heard := old(Now()).(messages := old(Now()).messages + Users(old(Now()).queue), queue := course.arrives(step, 0));
      assert Now() == heard;
      var round := Round(turn.calls, During(course.arrives, step), schedules);
      assert RoundOf(agent.setup, heard, turn.calls, During(course.arrives, step)) == Rounded(round, Now());
      match round {
        case GaveUp(tool) => return Some(CalledInCircles(tool)), counted;
        case Fails(tool, error) => return Some(Failed(tool, error)), counted;
        case Continues => return None, counted;
      }
    }

    /** The steps of a run, until there is nothing more to do but shape the answer. */
    method TakeSteps(course: Course, schedules: (nat, nat) -> seq<nat>) returns (end: End, used: nat)
      requires steering.Valid() && agent.Valid()
      modifies agent, steering
      ensures steering.Valid() && agent.Valid() && !end.Unshaped?
      ensures StepsOf(agent.setup, budgets, course, 0, old(Now()).(history := [])) == Outcome(end, used, Now())
      ensures steering.pushed == old(steering.pushed) + ArrivedInRun(course, None, used, end)
      ensures DeliveredSince(old(steering.delivered), UserTexts(old(agent.messages)), steering.delivered, UserTexts(agent.messages))
      ensures WithinBudgets(budgets, course.turns, course.late, used, end)
    {
      hide UserTexts, Texts, Under, Counted, WellDeclared, LastKeys, Arrived, ArrivedInStep, WithinBudgets, DeliveredSince, StepOf;
      ghost var delivered0, texts0, turns := steering.delivered, UserTexts(agent.messages), course.turns;
      agent.Restart();
      used := 0;
      var spent: U32 := 0;
      NoTurns(budgets.maxTokens, turns);
      NothingArrived(turns, course.arrives);
      NothingDelivered(delivered0, texts0);
      while true
        invariant used <= budgets.maxSteps && steering.Valid() && agent.Valid() && spent == Counted(turns, used)
        invariant StepsOf(agent.setup, budgets, course, used, Now())
                  == StepsOf(agent.setup, budgets, course, 0, old(Now()).(history := []))
        invariant steering.pushed == old(steering.pushed) + Arrived(turns, course.arrives, used)
        invariant DeliveredSince(delivered0, texts0, steering.delivered, UserTexts(agent.messages))
        invariant Under(budgets.maxTokens, turns, used)
        invariant forall k: nat :: k < used ==> !course.late(k)
        decreases budgets.maxSteps - used
      {
        if used == budgets.maxSteps {
          end := OutOfBudget(Steps);
          break;
        }
        if course.late(used) {
          end := OutOfBudget(Deadline);
          break;
        }
        OneMoreTurn(budgets.maxTokens, turns, used);
        OneMoreStep(course, used, old(steering.pushed));
        DeliverMore(delivered0, texts0, steering.delivered, UserTexts(agent.messages), steering.queue);
        var step := used;
        var ended: Option<End>;
        ended, spent := TakeStep(course, step, spent, (k: nat) => schedules(step, k));
        if ended.Some? {
          end := ended.value;
          used := if end.Broken? then used else used + 1;
          break;
        }
        used := used + 1;
      }
      EndsWithin(budgets, turns, course.late, used, end);
    }

    /** The run, on any transcript and with anything already queued: it comes to exactly
        what `RunOf` says, however the calls of its batches interleave. Everything that
        arrives is queued behind what waited, and of that queue a part, in order, has
        become the transcript's new user messages when the run ends, while the rest still
        waits: nothing is lost, doubled or overtaken. A run that finishes leaves nothing
        waiting but what arrives while its answer is shaped. */
    method RunWith(course: Course, schedules: (nat, nat) -> seq<nat>) returns (end: End, used: nat)
      requires steering.Valid() && agent.Valid()
      modifies agent, steering
      ensures steering.Valid() && agent.Valid()
      ensures Outcome(end, used, Now()) == RunOf(agent.setup, budgets, answerAs, course, old(Now()).(history := []))
      ensures steering.pushed == old(steering.pushed) + ArrivedInRun(course, answerAs, used, end)
      ensures old(steering.delivered) <= steering.delivered
      ensures UserTexts(agent.messages)
              == UserTexts(old(agent.messages)) + Texts(steering.delivered[|old(steering.delivered)|..])
                 + (if WasShaped(answerAs, end) then [answerAs.value] else [])
      ensures WithinBudgets(budgets, course.turns, course.late, used, end)
      ensures EndsWhenDone(course, 0, used, end)
      ensures Written(agent.messages)
              == Written(old(agent.messages)) + WrittenInTurns(course.turns, 0, TurnsKept(used, end))
                 + (if answerAs.Some? && end.Finished? then [Assistant(end.text)] else [])
      ensures end.Finished? ==>
                && steering.queue == (if answerAs.Some? then course.shaping.arrives else [])
                && agent.messages != [] && agent.messages[|agent.messages| - 1] == Assistant(end.text)
                && used > 0 && course.turns(used - 1).calls == []
                && (if answerAs.Some? then course.shaping.text == Ok(end.text) else end.text == course.turns(used - 1).text)
    {
      hide UserTexts, Texts, WellDeclared, LastKeys, Arrived, WithinBudgets, DeliveredSince, StepsOf;
      FinishedMeans(agent.setup, budgets, course, 0, Now().(history := []));
      StepsEndWhenDone(agent.setup, budgets, course, 0, Now().(history := []));
      StepsWritten(agent.setup, budgets, course, 0, Now().(history := []));
      hide Written, WrittenInTurns;
      end, used := TakeSteps(course, schedules);
      DeliveredMeans(old(steering.delivered), UserTexts(old(agent.messages)), steering.delivered, UserTexts(agent.messages));
      if end.Finished? {
        ghost var finished := end;
        AnsweredWritten(answerAs, course.shaping, end.text, used, Now());
        end := Shape(course.shaping, end.text, used);
        StillWithin(budgets, course.turns, course.late, used, finished, end);
      }
    }
  }

  lemma {:induction false} StillWithin(budgets: Budgets, turns: nat -> Turn, late: nat -> bool, used: nat, before: End, end: End)
    requires WithinBudgets(budgets, turns, late, used, before) && !before.OutOfBudget? && !end.OutOfBudget?
    ensures WithinBudgets(budgets, turns, late, used, end)
  {}

  /** A run that finishes does so by a turn without calls, with nothing waiting. */
  lemma {:induction false} FinishedMeans<W>(setup: Setup<W>, budgets: Budgets, course: Course, k: nat, s: Situation<W>)
    requires k <= budgets.maxSteps
    ensures var o := StepsOf(setup, budgets, course, k, s);
            o.end.Finished? ==>
              && o.left.queue == [] && o.used > 0
              && o.left.messages != [] && o.left.messages[|o.left.messages| - 1] == Assistant(o.end.text)
              && course.turns(o.used - 1).calls == [] && o.end.text == course.turns(o.used - 1).text
    decreases budgets.maxSteps - k
  {
    hide RoundOf, During, Users, Counted;
    if k < budgets.maxSteps && !course.late(k) {
      match StepOf(setup, budgets, course, k, s)
      case GoesOn(left) => FinishedMeans(setup, budgets, course, k + 1, left);
      case Over(_) =>
    }
  }

  lemma {:induction false} DeliveredMeans(delivered0: seq<Steer>, texts0: seq<string>, delivered: seq<Steer>, texts: seq<string>)
    requires DeliveredSince(delivered0, texts0, delivered, texts)
    ensures delivered0 <= delivered && texts == texts0 + Texts(delivered[|delivered0|..])
  {}

  /** What has been delivered since `delivered0` are the new user messages, in order. */
  ghost predicate DeliveredSince(delivered0: seq<Steer>, texts0: seq<string>, delivered: seq<Steer>, texts: seq<string>) {
    delivered0 <= delivered && texts == texts0 + Texts(delivered[|delivered0|..])
  }

  lemma {:induction false} NothingDelivered(delivered0: seq<Steer>, texts0: seq<string>)
    ensures DeliveredSince(delivered0, texts0, delivered0, texts0)
  {}

  lemma {:induction false} DeliverMore(delivered0: seq<Steer>, texts0: seq<string>, delivered: seq<Steer>, texts: seq<string>,
                                       steers: seq<Steer>)
    requires DeliveredSince(delivered0, texts0, delivered, texts)
    ensures DeliveredSince(delivered0, texts0, delivered + steers, texts + Texts(steers))
  {
    assert (delivered + steers)[|delivered0|..] == delivered[|delivered0|..] + steers;
  }

  lemma {:induction false} NothingArrived(turns: nat -> Turn, arrives: (nat, nat) -> seq<Steer>)
    ensures Arrived(turns, arrives, 0) == []
  {}

  lemma {:induction false} OneMoreStep(course: Course, n: nat, pushed: seq<Steer>)
    ensures pushed + Arrived(course.turns, course.arrives, n) + ArrivedInStep(course, n, false)
            == pushed + Arrived(course.turns, course.arrives, n + 1)
    ensures pushed + Arrived(course.turns, course.arrives, n) + ArrivedInStep(course, n, true)
            == pushed + (Arrived(course.turns, course.arrives, n) + course.arrives(n, 0))
  {
    hide During;
    var before, first, rest := Arrived(course.turns, course.arrives, n), course.arrives(n, 0),
                               ArrivedBy(During(course.arrives, n), |course.turns(n).calls|);
    assert first + [] == first;
    Reassociate(pushed, before, first);
    Reassociate(pushed, before, first + rest);
    Reassociate(before, first, rest);
  }

  lemma {:induction false} NothingWithoutCalls(course: Course, k: nat)
    requires course.turns(k).calls == []
    ensures ArrivedInStep(course, k, false) == course.arrives(k, 0) == ArrivedInStep(course, k, true)
  {}

  lemma {:induction false} OneMoreMessage(messages: seq<Message>, message: Message)
    ensures UserTexts(messages + [message]) == if message.User? then UserTexts(messages) + [message.text] else UserTexts(messages)
  {
    assert (messages + [message])[..|messages|] == messages;
  }
}
