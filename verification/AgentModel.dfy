/** The tool round of src/api/agent.rs as it would be without batching: the calls of a
    turn dispatched one by one, in the order the model wrote them. */
module AgentModel {
  import opened Wrappers

  /** One call the model asked for. Its arguments are the text the model wrote. */
  datatype Call = Call(id: Option<string>, name: string, arguments: string)

  datatype ToolError =
    | InvalidArguments(message: string)
    | ToolFailed(message: string)
    | Unavailable(message: string)
    | TimedOut
    | Denied(message: string)

  /** Whether the model is told, so that it can adjust. */
  predicate Actionable(e: ToolError) {
    e.InvalidArguments? || e.ToolFailed?
  }

  type Answer = Result<string, ToolError>

  /** An access, given what was observed before it. */
  type Access<!W> = (seq<W>, W) -> W

  /** A tool as the sequence of its accesses to the world, each of which observes it and,
      knowing all it observed before, leaves a new one behind; and the answer it forms
      from everything it observed. */
  datatype Tool<!W> = Tool(parallelSafe: bool, risky: bool, accesses: Call -> seq<Access<W>>, answer: (Call, seq<W>) -> Answer)

  /** What a run is set up with. `decide` is the approval callback, which may look at the
      world and at whatever it was asked before; `gated` says that there is one and that
      risky calls go through it. `search` finds deferred tools and changes the world. */
  datatype Setup<!W> = Setup(tools: map<string, Tool<W>>, search: Tool<W>, gated: bool,
                             decide: (W, seq<Call>, Call) -> Option<string>)

  const SEARCH_TOOL := "search_tools"

  /** The world, the calls the callback was asked about, and the positions of the calls
      that were run. */
  datatype Env<!W> = Env(world: W, asked: seq<Call>, ran: multiset<nat>)

  // ── One call ──────────────────────────────────────────────────────────────

  /** What a tool observes when it runs undisturbed. */
  function Observed<W>(w: W, accesses: seq<Access<W>>): seq<W> {
    if accesses == [] then []
    else
      var seen := Observed(w, accesses[..|accesses| - 1]);
      seen + [Left(w, accesses[..|accesses| - 1])]
  }

  function Left<W>(w: W, accesses: seq<Access<W>>): W {
    if accesses == [] then w
    else
      var most := accesses[..|accesses| - 1];
      accesses[|accesses| - 1](Observed(w, most), Left(w, most))
  }

  function ToolFor<W>(setup: Setup<W>, call: Call): Option<Tool<W>> {
    if call.name == SEARCH_TOOL then Some(setup.search)
    else if call.name in setup.tools then Some(setup.tools[call.name]) else None
  }

  /** Search never asks. */
  predicate Asks<W>(setup: Setup<W>, call: Call) {
    setup.gated && call.name != SEARCH_TOOL && call.name in setup.tools && setup.tools[call.name].risky
  }

  function Denial<W>(setup: Setup<W>, env: Env<W>, call: Call): Option<string> {
    if Asks(setup, call) then setup.decide(env.world, env.asked, call) else None
  }

  function NoSuchTool(name: string): Answer {
    Err(InvalidArguments("no tool named '" + name + "'"))
  }

  /** The answer of one call dispatched in `env`. */
  function AnswerOf<W>(setup: Setup<W>, env: Env<W>, call: Call): Answer {
    var tool := ToolFor(setup, call);
    if tool.None? then NoSuchTool(call.name)
    else if Denial(setup, env, call).Some? then Err(Denied(Denial(setup, env, call).value))
    else tool.value.answer(call, Observed(env.world, tool.value.accesses(call)))
  }

  predicate Runs<W>(setup: Setup<W>, env: Env<W>, call: Call) {
    ToolFor(setup, call).Some? && Denial(setup, env, call).None?
  }

  /** What one call dispatched in `env` at position `i` leaves behind. */
  function Dispatched<W>(setup: Setup<W>, env: Env<W>, i: nat, call: Call): Env<W> {
    Env(if Runs(setup, env, call) then Left(env.world, ToolFor(setup, call).value.accesses(call)) else env.world,
        if Asks(setup, call) then env.asked + [call] else env.asked,
        if Runs(setup, env, call) then env.ran + multiset{i} else env.ran)
  }

  // ── A round without batching ──────────────────────────────────────────────

  /** The environment after the first `n` calls, one by one. */
  function After<W>(setup: Setup<W>, env: Env<W>, calls: seq<Call>, n: nat): Env<W>
    requires n <= |calls|
  {
    if n == 0 then env else Dispatched(setup, After(setup, env, calls, n - 1), n - 1, calls[n - 1])
  }

  lemma {:induction false} AfterOneMore<W>(setup: Setup<W>, env: Env<W>, calls: seq<Call>, n: nat)
    requires n < |calls|
    ensures After(setup, env, calls, n + 1) == Dispatched(setup, After(setup, env, calls, n), n, calls[n])
  {}

  /** The answer of the `i`-th call when the ones before it have been run. */
  function AnswerAt<W>(setup: Setup<W>, env: Env<W>, calls: seq<Call>, i: nat): Answer
    requires i < |calls|
  {
    AnswerOf(setup, After(setup, env, calls, i), calls[i])
  }

  /** The calls of a list that the callback is asked about, in order. */
  function AskedOf<W>(setup: Setup<W>, calls: seq<Call>): seq<Call> {
    if calls == [] then []
    else AskedOf(setup, calls[..|calls| - 1]) + (if Asks(setup, calls[|calls| - 1]) then [calls[|calls| - 1]] else [])
  }

  /** Approvals are asked for exactly the risky calls, in call order. */
  lemma {:induction false} AsksInCallOrder<W>(setup: Setup<W>, env: Env<W>, calls: seq<Call>, n: nat)
    requires n <= |calls|
    ensures After(setup, env, calls, n).asked == env.asked + AskedOf(setup, calls[..n])
  {
    if n == 0 {
      assert env.asked + [] == env.asked;
    } else {
      AsksInCallOrder(setup, env, calls, n - 1);
      assert calls[..n][..n - 1] == calls[..n - 1];
    }
  }

  lemma {:induction false} RanOneMore<W>(setup: Setup<W>, env: Env<W>, at: nat, call: Call, i: nat)
    ensures Dispatched(setup, env, at, call).ran[i] == env.ran[i] + if i == at && Runs(setup, env, call) then 1 else 0
  {
    hide Runs, Left;
  }

  /** A call runs at most once, and not at all when it is denied or names no tool. */
  lemma {:induction false} RunsOnceUnlessDenied<W>(setup: Setup<W>, env: Env<W>, calls: seq<Call>, n: nat, i: nat)
    requires n <= |calls|
    ensures After(setup, env, calls, n).ran[i]
            == env.ran[i] + if i < n && Runs(setup, After(setup, env, calls, i), calls[i]) then 1 else 0
  {
    hide Runs;
    if n > 0 {
      RunsOnceUnlessDenied(setup, env, calls, n - 1, i);
      RanOneMore(setup, After(setup, env, calls, n - 1), n - 1, calls[n - 1], i);
    }
  }

  // ── The gate ──────────────────────────────────────────────────────────────

  /** The call goes to the callback before it may run. */
  predicate MustAsk<W>(setup: Setup<W>, call: Call) {
    setup.gated && call.name != "search_tools" && call.name in setup.tools && setup.tools[call.name].risky
  }

  /** A risky call of a gated run is always asked about, when everything before it has
      happened; it runs if and only if the callback does not object, and an objection is
      its answer and leaves the world alone. */
  lemma {:induction false} RiskyNeedsConsent<W>(setup: Setup<W>, env: Env<W>, calls: seq<Call>, n: nat, i: nat)
    requires i < n <= |calls| && MustAsk(setup, calls[i]) && env.ran[i] == 0
    ensures var before, after := After(setup, env, calls, i), After(setup, env, calls, i + 1);
            var objection := setup.decide(before.world, before.asked, calls[i]);
            && after.asked == before.asked + [calls[i]]
            && (After(setup, env, calls, n).ran[i] > 0 <==> objection == None)
            && (objection.Some? ==>
                  && after.world == before.world && after.ran == before.ran
                  && AnswerAt(setup, env, calls, i) == Err(Denied(objection.value)))
  {
    RunsOnceUnlessDenied(setup, env, calls, n, i);
    AfterOneMore(setup, env, calls, i);
  }

  /** Any other call is never asked about, and runs if and only if there is such a tool. One
      there is not is answered as the model's mistake. */
  lemma {:induction false} OthersRunUnasked<W>(setup: Setup<W>, env: Env<W>, calls: seq<Call>, n: nat, i: nat)
    requires i < n <= |calls| && !MustAsk(setup, calls[i]) && env.ran[i] == 0
    ensures var before, after := After(setup, env, calls, i), After(setup, env, calls, i + 1);
            var known := calls[i].name == "search_tools" || calls[i].name in setup.tools;
            && after.asked == before.asked
            && (After(setup, env, calls, n).ran[i] > 0 <==> known)
            && (!known ==> after.world == before.world && AnswerAt(setup, env, calls, i).Err?
                           && AnswerAt(setup, env, calls, i).error
                              == InvalidArguments("no tool named '" + calls[i].name + "'"))
  {
    RunsOnceUnlessDenied(setup, env, calls, n, i);
    AfterOneMore(setup, env, calls, i);
  }

  /** A call that runs makes the accesses of its own tool, each on what the one before left
      behind and knowing all that was seen, and is answered from all of it. */
  lemma {:induction false} RunsItsTool<W>(setup: Setup<W>, env: Env<W>, calls: seq<Call>, i: nat)
    requires i < |calls| && env.ran[i] == 0 && After(setup, env, calls, i + 1).ran[i] > 0
    ensures calls[i].name == "search_tools" || calls[i].name in setup.tools
    ensures var tool := if calls[i].name == "search_tools" then setup.search else setup.tools[calls[i].name];
            var accesses := tool.accesses(calls[i]);
            var before, after := After(setup, env, calls, i), After(setup, env, calls, i + 1);
            exists worlds: seq<W> :: Chain(before.world, accesses, worlds) && after.world == worlds[|accesses|]
                                     && AnswerAt(setup, env, calls, i) == tool.answer(calls[i], worlds[..|accesses|])
  {
    RunsOnceUnlessDenied(setup, env, calls, i + 1, i);
    AfterOneMore(setup, env, calls, i);
    var before := After(setup, env, calls, i);
    var tool := if calls[i].name == "search_tools" then setup.search else setup.tools[calls[i].name];
    var worlds := LeavesAChain(before.world, tool.accesses(calls[i]));
    assert worlds[..|tool.accesses(calls[i])|] == Observed(before.world, tool.accesses(calls[i]));
  }

  /** The worlds along a sequence of accesses, from the first to what is left in the end. */
  ghost predicate Chain<W>(w: W, accesses: seq<Access<W>>, worlds: seq<W>) {
    && |worlds| == |accesses| + 1 && worlds[0] == w
    && forall k :: 0 <= k < |accesses| ==> worlds[k + 1] == accesses[k](worlds[..k], worlds[k])
  }

  lemma {:induction false} LeavesAChain<W>(w: W, accesses: seq<Access<W>>) returns (worlds: seq<W>)
    ensures Chain(w, accesses, worlds)
    ensures worlds[..|accesses|] == Observed(w, accesses) && worlds[|accesses|] == Left(w, accesses)
    decreases |accesses|
  {
    if accesses == [] {
      worlds := [w];
    } else {
      var n := |accesses| - 1;
      var most := LeavesAChain(w, accesses[..n]);
      worlds := most + [Left(w, accesses)];
      forall k | 0 <= k < |accesses|
        ensures worlds[k + 1] == accesses[k](worlds[..k], worlds[k])
      {
        assert worlds[..k] == most[..k] && worlds[k] == most[k];
        if k < n {
          assert worlds[k + 1] == most[k + 1] && accesses[..n][k] == accesses[k];
        }
      }
      assert worlds[..n + 1] == most && most == most[..n] + [most[n]];
    }
  }

  // ── Parallel-safe tools ───────────────────────────────────────────────────

  /** A call that may share a batch: it names a parallel-safe tool, and not search. */
  predicate Batches<W>(setup: Setup<W>, call: Call) {
    call.name != SEARCH_TOOL && call.name in setup.tools && setup.tools[call.name].parallelSafe
  }

  /** What declaring a tool parallel-safe promises: it only reads. */
  ghost predicate WellDeclared<W(!new)>(setup: Setup<W>) {
    forall name, call, k, seen, w ::
      (name in setup.tools && setup.tools[name].parallelSafe && 0 <= k < |setup.tools[name].accesses(call)|)
      ==> setup.tools[name].accesses(call)[k](seen, w) == w
  }

  function Copies<W>(w: W, n: nat): seq<W> {
    seq(n, _ => w)
  }

  /** A reader sees one and the same world, and leaves it. */
  lemma {:induction false} ReaderObserves<W(!new)>(w: W, accesses: seq<Access<W>>)
    requires forall k, seen, v :: 0 <= k < |accesses| ==> accesses[k](seen, v) == v
    ensures Observed(w, accesses) == Copies(w, |accesses|) && Left(w, accesses) == w
    decreases |accesses|
  {
    if accesses != [] {
      var most := accesses[..|accesses| - 1];
      forall k, seen, v | 0 <= k < |most|
        ensures most[k](seen, v) == v
      {
        assert most[k] == accesses[k];
      }
      ReaderObserves(w, most);
      assert Copies(w, |accesses|) == Copies(w, |most|) + [w];
    }
  }

  lemma {:induction false} BatchedCallReads<W(!new)>(setup: Setup<W>, env: Env<W>, i: nat, call: Call)
    requires WellDeclared(setup) && Batches(setup, call)
    ensures Dispatched(setup, env, i, call).world == env.world
    ensures var tool := setup.tools[call.name];
            Runs(setup, env, call) ==> AnswerOf(setup, env, call) == tool.answer(call, Copies(env.world, |tool.accesses(call)|))
  {
    ReaderObserves(env.world, setup.tools[call.name].accesses(call));
  }

  predicate AllBatch<W>(setup: Setup<W>, calls: seq<Call>, from: nat, to: nat) {
    to <= |calls| && forall i :: from <= i < to ==> Batches(setup, calls[i])
  }

  /** Along a batch the world stands still. */
  lemma {:induction false} BatchKeepsWorld<W(!new)>(setup: Setup<W>, env: Env<W>, calls: seq<Call>, from: nat, i: nat)
    requires WellDeclared(setup) && from <= i && AllBatch(setup, calls, from, i)
    ensures After(setup, env, calls, i).world == After(setup, env, calls, from).world
  {
    if from < i {
      BatchKeepsWorld(setup, env, calls, from, i - 1);
      BatchedCallReads(setup, After(setup, env, calls, i - 1), i - 1, calls[i - 1]);
    }
  }

  // ── The progress guard ────────────────────────────────────────────────────

  const REPEAT_LIMIT: nat := 3

  datatype Key = Key(name: string, arguments: string)

  function KeyOf(call: Call): Key {
    Key(call.name, call.arguments)
  }

  /** The last calls of a run are one and the same, `REPEAT_LIMIT` times. */
  predicate Repeats(history: seq<Key>) {
    |history| >= REPEAT_LIMIT && forall i :: |history| - REPEAT_LIMIT <= i < |history| ==> history[i] == history[|history| - 1]
  }

  /** How the call loop of a round stops: before call `n`, interrupted or not, or at a
      call that goes in circles. */
  datatype Stop = Through(n: nat, interrupted: bool) | Circles(n: nat)

  function Keys(calls: seq<Call>): seq<Key> {
    seq(|calls|, i requires 0 <= i < |calls| => KeyOf(calls[i]))
  }

  /** Where the loop stops depends only on what was called before, on the calls of the
      round, and on when an interruption is first seen. */
  function StopOf(history: seq<Key>, calls: seq<Call>, interrupt: nat -> bool, from: nat): (stop: Stop)
    requires from <= |calls|
    ensures from <= stop.n <= |calls| && (stop.Circles? ==> stop.n < |calls|)
    decreases |calls| - from
  {
    if from == |calls| then Through(from, false)
    else if interrupt(from) then Through(from, true)
    else if Repeats(history + Keys(calls[..from + 1])) then Circles(from)
    else StopOf(history, calls, interrupt, from + 1)
  }

  /** Three calls in a row with the same name and the same arguments. */
  lemma {:induction false} RepeatsMeansThree(before: seq<Call>, a: Call, b: Call, c: Call)
    ensures Repeats(Keys(before + [a, b, c]))
            <==> a.name == b.name == c.name && a.arguments == b.arguments == c.arguments
    ensures !Repeats(Keys([a, b])) && !Repeats(Keys([a])) && !Repeats(Keys([]))
  {
    var keys := Keys(before + [a, b, c]);
    var n := |before|;
    assert keys[n] == KeyOf(a) && keys[n + 1] == KeyOf(b) && keys[n + 2] == KeyOf(c);
    assert Repeats(keys) <==> keys[n] == keys[n + 2] && keys[n + 1] == keys[n + 2];
  }

  /** At call `i` no interruption is seen, and it is not one too many of its kind. */
  predicate GoesOn(history: seq<Key>, calls: seq<Call>, interrupt: nat -> bool, i: nat)
    requires i < |calls|
  {
    !interrupt(i) && !Repeats(history + Keys(calls[..i + 1]))
  }

  /** The loop goes in circles exactly at the first call that is the third of its kind in
      a row, counted across rounds, unless an interruption is seen first. */
  lemma {:induction false} StopsAtFirst(history: seq<Key>, calls: seq<Call>, interrupt: nat -> bool, from: nat)
    requires from <= |calls|
    ensures var stop := StopOf(history, calls, interrupt, from);
            && (forall i: nat :: from <= i < stop.n ==> GoesOn(history, calls, interrupt, i))
            && (stop.Circles? ==> !interrupt(stop.n) && Repeats(history + Keys(calls[..stop.n + 1])))
            && (stop.Through? && stop.interrupted ==> stop.n < |calls| && interrupt(stop.n))
            && (stop.Through? && !stop.interrupted ==> stop.n == |calls|)
    decreases |calls| - from
  {
    hide Repeats, Keys;
    if from < |calls| && GoesOn(history, calls, interrupt, from) {
      StopsAtFirst(history, calls, interrupt, from + 1);
    }
  }

  /** Where the batch that is open before call `k` begins. */
  function BatchStart<W>(setup: Setup<W>, calls: seq<Call>, k: nat): (b: nat)
    requires k <= |calls|
    ensures b <= k && AllBatch(setup, calls, b, k)
    ensures b > 0 ==> !Batches(setup, calls[b - 1])
  {
    if k == 0 then 0 else if Batches(setup, calls[k - 1]) then BatchStart(setup, calls, k - 1) else k
  }

  // ── The transcript ────────────────────────────────────────────────────────

  /** A call as the transcript keeps it: one without an id goes under its name. */
  datatype WireCall = WireCall(id: string, name: string, arguments: string)

  function WireOf(call: Call): WireCall {
    WireCall(if call.id.Some? then call.id.value else call.name, call.name, call.arguments)
  }

  datatype Message =
    | User(text: string)
    | Assistant(text: string)
    | Asked(calls: seq<WireCall>)
    | ResultFor(id: string, content: string)
    | UntiedResult(content: string)

  function AskedFor(calls: seq<Call>): Message {
    Asked(seq(|calls|, i requires 0 <= i < |calls| => WireOf(calls[i])))
  }

  /** What the model is told about a call; nothing when its failure ends the run. */
  function Told(answer: Answer): Option<string> {
    match answer
    case Ok(text) => Some(text)
    case Err(e) => if Actionable(e) then Some(ErrorText(e)) else None
  }

  function ErrorText(e: ToolError): string {
    match e
    case InvalidArguments(m) => "error: invalid arguments: " + m
    case ToolFailed(m) => "error: " + m
    case Unavailable(m) => "error: unavailable: " + m
    case TimedOut => "error: timed out"
    case Denied(m) => "error: denied: " + m
  }

  /** A result is tied to its call by the call's own id, and to nothing when it has none. */
  function ResultMessage(call: Call, content: string): Message {
    if call.id.Some? then ResultFor(call.id.value, content) else UntiedResult(content)
  }

  /** The results that reach the transcript: one for each call, up to the first whose
      failure ends the run. */
  function ResultsOf(calls: seq<Call>, answers: seq<Answer>): (messages: seq<Message>)
    requires |answers| <= |calls|
  {
    if answers == [] || Told(answers[0]).None? then []
    else [ResultMessage(calls[0], Told(answers[0]).value)] + ResultsOf(calls[1..], answers[1..])
  }

  /** Every call is recorded as it was asked: its name, its arguments, and its id or, without
      one, its name again. */
  lemma {:induction false} AskedAsWritten(calls: seq<Call>)
    ensures AskedFor(calls).Asked? && |AskedFor(calls).calls| == |calls|
    ensures forall i :: 0 <= i < |calls| ==>
              && AskedFor(calls).calls[i].name == calls[i].name && AskedFor(calls).calls[i].arguments == calls[i].arguments
              && (calls[i].id.Some? ==> AskedFor(calls).calls[i].id == calls[i].id.value)
              && (calls[i].id.None? ==> AskedFor(calls).calls[i].id == calls[i].name)
  {}

  /** The model is told what a tool answered, and the failures it can mend, which are its
      own arguments and a tool that failed; nothing of any other failure. */
  lemma {:induction false} ToldExactly(answer: Answer)
    ensures match answer
            case Ok(text) => Told(answer) == Some(text)
            case Err(InvalidArguments(m)) => Told(answer) == Some("error: invalid arguments: " + m)
            case Err(ToolFailed(m)) => Told(answer) == Some("error: " + m)
            case Err(_) => Told(answer) == None
  {}

  /** The results answer a prefix of the calls, each call by one result, in call order and
      under its own id; the prefix ends only at the end or at a failure that ends the
      run. */
  lemma {:induction false} ResultsAnswerAPrefix(calls: seq<Call>, answers: seq<Answer>)
    requires |answers| <= |calls|
    ensures var results := ResultsOf(calls, answers);
            && |results| <= |answers|
            && (forall i :: 0 <= i < |results| ==>
                  && Told(answers[i]).Some? && results[i] == ResultMessage(calls[i], Told(answers[i]).value)
                  && results[i] == (match calls[i].id
                                    case Some(id) => ResultFor(id, Told(answers[i]).value)
                                    case None => UntiedResult(Told(answers[i]).value))
                  && (results[i].ResultFor? <==> calls[i].id.Some?)
                  && (results[i].ResultFor? ==> results[i].id == AskedFor(calls).calls[i].id))
            && (|results| < |answers| ==> answers[|results|].Err? && !Actionable(answers[|results|].error))
  {
    if answers != [] && Told(answers[0]).Some? {
      ResultsAnswerAPrefix(calls[1..], answers[1..]);
    }
  }
}
