/** The tool round of src/api/agent.rs as it is: consecutive parallel-safe calls wait in
    a batch and run interleaved, everything else runs alone, and results are put back
    into call order. Proved to come to the same as AgentModel's one call at a time. */
module AgentRound {
  import opened Wrappers
  import opened AgentModel
  import opened SortedResults

  // ── What a round should produce ───────────────────────────────────────────

  /** The answers of calls `from` to `to`, dispatched one by one, by position. */
  function Entries<W>(setup: Setup<W>, env: Env<W>, calls: seq<Call>, from: nat, to: nat): (entries: seq<Entry<Answer>>)
    requires from <= to <= |calls|
    ensures |entries| == to - from
  {
    seq(to - from, k requires 0 <= k < to - from => Entry(from + k, AnswerAt(setup, env, calls, from + k)))
  }

  predicate InRange(at: seq<nat>, n: nat) {
    forall t :: 0 <= t < |at| ==> at[t] < n
  }

  /** The same for chosen positions. */
  function EntriesAt<W>(setup: Setup<W>, env: Env<W>, calls: seq<Call>, at: seq<nat>): seq<Entry<Answer>>
    requires InRange(at, |calls|)
  {
    seq(|at|, t requires 0 <= t < |at| => Entry(at[t], AnswerAt(setup, env, calls, at[t])))
  }

  function Answers<W>(setup: Setup<W>, env: Env<W>, calls: seq<Call>, n: nat): seq<Answer>
    requires n <= |calls|
  {
    seq(n, i requires 0 <= i < n => AnswerAt(setup, env, calls, i))
  }

  lemma {:induction false} OneMoreEntry<W>(setup: Setup<W>, env: Env<W>, calls: seq<Call>, from: nat, to: nat)
    requires from <= to < |calls|
    ensures Entries(setup, env, calls, from, to + 1)
            == Entries(setup, env, calls, from, to) + [Entry(to, AnswerAt(setup, env, calls, to))]
  {}

  lemma {:induction false} JoinEntries<W>(setup: Setup<W>, env: Env<W>, calls: seq<Call>, from: nat, to: nat)
    requires from <= to <= |calls|
    ensures Entries(setup, env, calls, 0, to) == Entries(setup, env, calls, 0, from) + Entries(setup, env, calls, from, to)
  {}

  function Positions(from: nat, to: nat): seq<nat>
    requires from <= to
  {
    seq(to - from, k requires 0 <= k < to - from => from + k)
  }

  function LastKeys(history: seq<Key>): seq<Key> {
    if |history| <= REPEAT_LIMIT then history else history[|history| - REPEAT_LIMIT..]
  }

  lemma {:induction false} WindowShowsRepeats(history: seq<Key>, key: Key)
    requires history != [] && history[|history| - 1] == key
    ensures var recent := LastKeys(history);
            Repeats(history) <==> |recent| == REPEAT_LIMIT && forall i :: 0 <= i < |recent| ==> recent[i] == key
  {
    var recent, n := LastKeys(history), |history|;
    if n >= REPEAT_LIMIT {
      assert recent[0] == history[n - 3] && recent[1] == history[n - 2] && recent[2] == history[n - 1];
    }
  }

  lemma {:induction false} WindowSlides(history: seq<Key>, key: Key)
    ensures var longer := LastKeys(history) + [key];
            LastKeys(history + [key]) == if |longer| > REPEAT_LIMIT then longer[1..] else longer
  {}

  lemma {:induction false} EmptyBatch(from: nat)
    ensures Positions(from, from) == []
  {}

  lemma {:induction false} NoCalls<W>(setup: Setup<W>, env: Env<W>, calls: seq<Call>, history: seq<Key>, interrupt: nat -> bool)
    ensures history + Keys(calls[..0]) == history
    ensures BatchStart(setup, calls, 0) == 0 && Positions(0, 0) == []
    ensures After(setup, env, calls, 0) == env && Entries(setup, env, calls, 0, 0) == []
    ensures StopOf(history, calls, interrupt, |calls|) == Through(|calls|, false)
  {}

  lemma {:induction false} NextCall<W>(setup: Setup<W>, history: seq<Key>, calls: seq<Call>, interrupt: nat -> bool, i: nat)
    requires i < |calls|
    ensures var here, next := StopOf(history, calls, interrupt, i), StopOf(history, calls, interrupt, i + 1);
            var seen := (history + Keys(calls[..i])) + [KeyOf(calls[i])];
            && seen == history + Keys(calls[..i + 1])
            && here == (if interrupt(i) then Through(i, true) else if Repeats(seen) then Circles(i) else next)
    ensures BatchStart(setup, calls, i + 1) == if Batches(setup, calls[i]) then BatchStart(setup, calls, i) else i + 1
    ensures Positions(BatchStart(setup, calls, i), i + 1) == Positions(BatchStart(setup, calls, i), i) + [i]
  {
    assert Keys(calls[..i + 1]) == Keys(calls[..i]) + [KeyOf(calls[i])];
    assert (history + Keys(calls[..i])) + [KeyOf(calls[i])] == history + (Keys(calls[..i]) + [KeyOf(calls[i])]);
  }

  /** The calls of a batch that were not denied, in order. */
  ghost predicate Approved<W>(setup: Setup<W>, env0: Env<W>, calls: seq<Call>, from: nat, to: nat, approved: seq<nat>)
    requires from <= to <= |calls|
  {
    && (forall t :: 0 <= t < |approved| ==>
          from <= approved[t] < to && Runs(setup, After(setup, env0, calls, approved[t]), calls[approved[t]]))
    && After(setup, env0, calls, to).ran == After(setup, env0, calls, from).ran + multiset(approved)
  }

  lemma {:induction false} NoneApproved<W>(setup: Setup<W>, env0: Env<W>, calls: seq<Call>, from: nat)
    requires from <= |calls|
    ensures Approved(setup, env0, calls, from, from, [])
    ensures EntriesAt(setup, env0, calls, []) == Entries(setup, env0, calls, from, from) == []
  {}

  lemma {:induction false} OneMoreApproved<W>(setup: Setup<W>, env0: Env<W>, calls: seq<Call>, from: nat, to: nat, approved: seq<nat>)
    requires from <= to < |calls| && Approved(setup, env0, calls, from, to, approved)
    ensures var more := if Runs(setup, After(setup, env0, calls, to), calls[to]) then approved + [to] else approved;
            Approved(setup, env0, calls, from, to + 1, more)
  {
    hide AnswerAt, Runs, After;
    AfterOneMore(setup, env0, calls, to);
    assert multiset(approved + [to]) == multiset(approved) + multiset{to};
  }

  lemma {:induction false} OneMoreEntryAt<W>(setup: Setup<W>, env: Env<W>, calls: seq<Call>, at: seq<nat>, i: nat)
    requires i < |calls| && InRange(at, |calls|)
    ensures InRange(at + [i], |calls|)
    ensures EntriesAt(setup, env, calls, at + [i]) == EntriesAt(setup, env, calls, at) + [Entry(i, AnswerAt(setup, env, calls, i))]
  {}

  lemma {:induction false} OneMoreEach<T>(a: multiset<T>, b: multiset<T>, c: multiset<T>, d: multiset<T>, e: T)
    requires a + b == c + d
    ensures (a + multiset{e}) + b == c + (d + multiset{e}) && a + (b + multiset{e}) == c + (d + multiset{e})
  {
    var one := multiset{e};
    assert (a + one) + b == (a + b) + one && a + (b + one) == (a + b) + one && c + (d + one) == (c + d) + one;
  }

  /** Asking in the middle of a batch, where nothing of the batch has run yet, is asking
      as if everything before had. */
  lemma {:induction false} AsksTheSame<W(!new)>(setup: Setup<W>, env0: Env<W>, calls: seq<Call>, from: nat, i: nat, env: Env<W>)
    requires from <= i && WellDeclared(setup) && AllBatch(setup, calls, from, i + 1)
    requires env.world == After(setup, env0, calls, from).world && env.asked == After(setup, env0, calls, i).asked
    ensures var before := After(setup, env0, calls, i);
            && Denial(setup, env, calls[i]) == Denial(setup, before, calls[i])
            && (Runs(setup, before, calls[i]) <==> Denial(setup, env, calls[i]).None?)
            && (Denial(setup, env, calls[i]).Some? ==>
                  AnswerAt(setup, env0, calls, i) == Err(Denied(Denial(setup, env, calls[i]).value)))
            && After(setup, env0, calls, i + 1).asked
               == if Asks(setup, calls[i]) then env.asked + [calls[i]] else env.asked
  {
    BatchKeepsWorld(setup, env0, calls, from, i);
  }

  /** Every tool is a reader. */
  ghost predicate AllRead<W(!new)>(tools: seq<seq<Access<W>>>) {
    forall t, k, seen, w :: 0 <= t < |tools| && 0 <= k < |tools[t]| ==> tools[t][k](seen, w) == w
  }

  /** Each tool of a batch has seen the one world, once for each access it has made. */
  ghost predicate Seeing<W>(w: W, tools: seq<seq<Access<W>>>, seen: seq<seq<W>>) {
    |seen| == |tools| && forall t :: 0 <= t < |tools| ==> |seen[t]| <= |tools[t]| && seen[t] == Copies(w, |seen[t]|)
  }

  lemma {:induction false} ReaderAnswers<W(!new)>(setup: Setup<W>, env0: Env<W>, calls: seq<Call>, from: nat, i: nat)
    requires from <= i && WellDeclared(setup) && AllBatch(setup, calls, from, i + 1)
    requires Runs(setup, After(setup, env0, calls, i), calls[i])
    ensures var tool := setup.tools[calls[i].name];
            AnswerAt(setup, env0, calls, i)
            == tool.answer(calls[i], Copies(After(setup, env0, calls, from).world, |tool.accesses(calls[i])|))
  {
    BatchKeepsWorld(setup, env0, calls, from, i);
    BatchedCallReads(setup, After(setup, env0, calls, i), i, calls[i]);
  }

  /** How a round ends the run, if it does. */
  datatype RoundEnd = Continues | GaveUp(tool: string) | Fails(tool: string, error: ToolError)

  function Shifted(ahead: nat, n: Option<nat>): Option<nat> {
    if n.Some? then Some(ahead + n.value) else None
  }

  /** The first answer the model is not told about. */
  function FirstFatal(answers: seq<Answer>): (k: Option<nat>)
    ensures k.Some? ==> k.value < |answers|
  {
    if answers == [] then None
    else if Told(answers[0]).None? then Some(0) else Shifted(1, FirstFatal(answers[1..]))
  }

  lemma {:induction false} FatalIsError(answers: seq<Answer>)
    ensures var k := FirstFatal(answers);
            && (k.Some? ==> answers[k.value].Err? && !Actionable(answers[k.value].error))
            && (forall i :: 0 <= i < (if k.Some? then k.value else |answers|) ==> Told(answers[i]).Some?)
  {
    if answers != [] && Told(answers[0]).Some? {
      FatalIsError(answers[1..]);
    }
  }

  /** A round ends the run at the first failure the model cannot mend, if there is one. */
  function EndOf(calls: seq<Call>, answers: seq<Answer>): RoundEnd
    requires |answers| <= |calls|
  {
    var k := FirstFatal(answers);
    FatalIsError(answers);
    if k.Some? then Fails(calls[k.value].name, answers[k.value].error) else Continues
  }

  /** What the model can mend, or what needs no mending. */
  predicate Mendable(answer: Answer) {
    answer.Ok? || answer.error.InvalidArguments? || answer.error.ToolFailed?
  }

  /** A round lets the run go on if and only if every answer can be told, and otherwise ends
      it with the first that cannot. */
  lemma {:induction false} EndsExactly(calls: seq<Call>, answers: seq<Answer>)
    requires |answers| <= |calls|
    ensures EndOf(calls, answers) == Continues <==> forall i :: 0 <= i < |answers| ==> Mendable(answers[i])
    ensures forall k :: 0 <= k < |answers| && !Mendable(answers[k]) && (forall i :: 0 <= i < k ==> Mendable(answers[i])) ==>
              EndOf(calls, answers) == Fails(calls[k].name, answers[k].error)
  {
    hide FirstFatal, Told, Mendable;
    FatalIsError(answers);
    var k := FirstFatal(answers);
    forall i | 0 <= i < |answers|
      ensures Told(answers[i]).Some? <==> Mendable(answers[i])
    {
      ToldIsMendable(answers[i]);
    }
    if k.Some? {
      NotMendable(answers[k.value]);
    }
  }

  lemma {:induction false} ToldIsMendable(answer: Answer)
    ensures Told(answer).Some? <==> Mendable(answer)
  {}

  lemma {:induction false} NotMendable(answer: Answer)
    requires answer.Err? && !Actionable(answer.error)
    ensures !Mendable(answer)
  {}

  /** A denial ends the run before anything about it reaches the model: the results stop
      short of the denied call. */
  lemma {:induction false} DenialIsNeverTold(calls: seq<Call>, answers: seq<Answer>, k: nat)
    requires k < |answers| <= |calls| && answers[k].Err? && answers[k].error.Denied?
    ensures EndOf(calls, answers).Fails? && |ResultsOf(calls, answers)| <= k
  {
    FatalIsError(answers);
    ResultsStopAtFatal(calls, answers);
    assert Told(answers[k]).None?;
  }

  lemma {:induction false} ResultsStopAtFatal(calls: seq<Call>, answers: seq<Answer>)
    requires |answers| <= |calls|
    ensures var k := FirstFatal(answers); |ResultsOf(calls, answers)| == if k.Some? then k.value else |answers|
  {
    if answers != [] && Told(answers[0]).Some? {
      ResultsStopAtFatal(calls[1..], answers[1..]);
    }
  }

  lemma {:induction false} NextResult(calls: seq<Call>, answers: seq<Answer>, i: nat)
    requires i < |answers| <= |calls|
    ensures var here := Told(answers[i]);
            && ResultsOf(calls[i..], answers[i..])
               == (if here.None? then []
                   else [ResultMessage(calls[i], here.value)] + ResultsOf(calls[i + 1..], answers[i + 1..]))
            && FirstFatal(answers[i..]) == (if here.None? then Some(0) else Shifted(1, FirstFatal(answers[i + 1..])))
  {
    assert calls[i..][1..] == calls[i + 1..] && answers[i..][1..] == answers[i + 1..];
  }

  lemma {:induction false} EntriesNumbered<W>(setup: Setup<W>, env: Env<W>, calls: seq<Call>, n: nat)
    requires n <= |calls|
    ensures Numbered(Entries(setup, env, calls, 0, n))
    ensures |Answers(setup, env, calls, n)| == n
    ensures forall i :: 0 <= i < n ==> Entries(setup, env, calls, 0, n)[i] == Entry(i, Answers(setup, env, calls, n)[i])
  {}

  class AgentRun<W(!new)> {
    const setup: Setup<W>
    var env: Env<W>
    var recent: seq<Key>
    var messages: seq<Message>
    ghost var history: seq<Key>

    ghost predicate Valid()
      reads this
    {
      WellDeclared(setup) && recent == LastKeys(history)
    }

    constructor (setup: Setup<W>, world: W)
      requires WellDeclared(setup)
      ensures Valid() && history == [] && messages == []
      ensures this.setup == setup && env == Env(world, [], multiset{})
    {
      this.setup, env := setup, Env(world, [], multiset{});
      recent, messages, history := [], [], [];
    }

    /** Put a risky call before the approval callback. */
    method Approve(call: Call) returns (denial: Option<string>)
      modifies `env
      ensures denial == Denial(setup, old(env), call)
      ensures env == old(env).(asked := if Asks(setup, call) then old(env).asked + [call] else old(env).asked)
    {
      denial := None;
      if setup.gated && call.name != SEARCH_TOOL && call.name in setup.tools && setup.tools[call.name].risky {
        denial := setup.decide(env.world, env.asked, call);
        env := env.(asked := env.asked + [call]);
      }
    }

    /** Let a tool make its accesses, undisturbed. */
    method RunAlone(accesses: seq<Access<W>>) returns (seen: seq<W>)
      modifies `env
      ensures seen == Observed(old(env).world, accesses)
      ensures env == old(env).(world := Left(old(env).world, accesses))
    {
      seen := [];
      for k := 0 to |accesses|
        invariant seen == Observed(old(env).world, accesses[..k])
        invariant env == old(env).(world := Left(old(env).world, accesses[..k]))
      {
        assert accesses[..k + 1][..k] == accesses[..k];
        var next := accesses[k](seen, env.world);
        seen := seen + [env.world];
        env := env.(world := next);
      }
      assert accesses[..|accesses|] == accesses;
    }

    /** Resolve, gate, and run one call; search is not gated. */
    method Dispatch(i: nat, call: Call) returns (answer: Answer)
      modifies `env
      ensures answer == AnswerOf(setup, old(env), call)
      ensures env == Dispatched(setup, old(env), i, call)
    {
      if call.name != SEARCH_TOOL && call.name !in setup.tools {
        return NoSuchTool(call.name);
      }
      var tool := if call.name == SEARCH_TOOL then setup.search else setup.tools[call.name];
      var denial := Approve(call);
      if denial.Some? {
        return Err(Denied(denial.value));
      }
      env := env.(ran := env.ran + multiset{i});
      var seen := RunAlone(tool.accesses(call));
      answer := tool.answer(call, seen);
    }

    /** Ask for every approval of the batch before anything in it runs; denials are
        results already. */
    method ApproveBatch(calls: seq<Call>, batch: seq<nat>, results: seq<Entry<Answer>>,
                        ghost env0: Env<W>, ghost from: nat, ghost to: nat)
      returns (out: seq<Entry<Answer>>, approved: seq<nat>)
      requires from <= to && WellDeclared(setup) && AllBatch(setup, calls, from, to) && batch == Positions(from, to)
      requires env == After(setup, env0, calls, from)
      modifies `env
      ensures env == old(env).(asked := After(setup, env0, calls, to).asked)
      ensures Approved(setup, env0, calls, from, to, approved) && InRange(approved, |calls|)
      ensures multiset(out) + multiset(EntriesAt(setup, env0, calls, approved))
              == multiset(results) + multiset(Entries(setup, env0, calls, from, to))
    {
      hide AnswerAt, After, Approved, Denial, Runs, EntriesAt, Entries;
      out, approved := results, [];
      NoneApproved(setup, env0, calls, from);
      for k := 0 to |batch|
        invariant env == old(env).(asked := After(setup, env0, calls, from + k).asked)
        invariant Approved(setup, env0, calls, from, from + k, approved) && InRange(approved, |calls|)
        invariant multiset(out) + multiset(EntriesAt(setup, env0, calls, approved))
                  == multiset(results) + multiset(Entries(setup, env0, calls, from, from + k))
      {
        var i := batch[k];
        AsksTheSame(setup, env0, calls, from, i, env);
        OneMoreApproved(setup, env0, calls, from, i, approved);
        OneMoreEntry(setup, env0, calls, from, i);
        ghost var entry := Entry(i, AnswerAt(setup, env0, calls, i));
        assert multiset(Entries(setup, env0, calls, from, i + 1)) == multiset(Entries(setup, env0, calls, from, i)) + multiset{entry};
        OneMoreEach(multiset(out), multiset(EntriesAt(setup, env0, calls, approved)),
                    multiset(results), multiset(Entries(setup, env0, calls, from, i)), entry);
        var denial := Approve(calls[i]);
        if denial.Some? {
          assert multiset(out + [entry]) == multiset(out) + multiset{entry};
          out := out + [Entry(i, Err(Denied(denial.value)))];
        } else {
          OneMoreEntryAt(setup, env0, calls, approved, i);
          assert multiset(EntriesAt(setup, env0, calls, approved + [i]))
                 == multiset(EntriesAt(setup, env0, calls, approved)) + multiset{entry};
          approved := approved + [i];
        }
      }
    }

    /** Run what was approved, interleaved as `schedule` says and then to the end. The
        answers come in the order of the list, whatever finished first. */
    method JoinAll(calls: seq<Call>, approved: seq<nat>, schedule: seq<nat>, ghost env0: Env<W>, ghost from: nat, ghost to: nat)
      returns (answers: seq<Answer>)
      requires from <= to && WellDeclared(setup) && AllBatch(setup, calls, from, to)
      requires Approved(setup, env0, calls, from, to, approved) && InRange(approved, |calls|)
      requires env.world == After(setup, env0, calls, from).world
      modifies `env
      ensures env == old(env).(ran := old(env).ran + multiset(approved))
      ensures |answers| == |approved|
      ensures forall t :: 0 <= t < |approved| ==> answers[t] == AnswerAt(setup, env0, calls, approved[t])
    {
      hide AnswerAt, After;
      var tools := seq(|approved|, t requires 0 <= t < |approved| =>
        setup.tools[calls[approved[t]].name].accesses(calls[approved[t]]));
      var seen: seq<seq<W>> := seq(|approved|, _ => []);
      env := env.(ran := env.ran + multiset(approved));
      for s := 0 to |schedule|
        invariant env == old(env).(ran := env.ran) && Seeing(env.world, tools, seen)
        invariant env.ran == old(env).ran + multiset(approved)
      {
        if schedule[s] < |tools| && |seen[schedule[s]]| < |tools[schedule[s]]| {
          seen := Advance(tools, seen, schedule[s]);
        }
      }
      answers := [];
      for t := 0 to |approved|
        invariant env == old(env).(ran := env.ran) && Seeing(env.world, tools, seen)
        invariant env.ran == old(env).ran + multiset(approved)
        invariant |answers| == t
        invariant forall u :: 0 <= u < t ==> answers[u] == AnswerAt(setup, env0, calls, approved[u])
      {
        while |seen[t]| < |tools[t]|
          invariant env == old(env).(ran := env.ran) && Seeing(env.world, tools, seen)
          invariant env.ran == old(env).ran + multiset(approved)
          decreases |tools[t]| - |seen[t]|
        {
          seen := Advance(tools, seen, t);
        }
        ReaderAnswers(setup, env0, calls, from, approved[t]);
        answers := answers + [setup.tools[calls[approved[t]].name].answer(calls[approved[t]], seen[t])];
      }
    }

    /** One access of one of the interleaved tools. */
    method Advance(tools: seq<seq<Access<W>>>, seen: seq<seq<W>>, t: nat) returns (more: seq<seq<W>>)
      requires Seeing(env.world, tools, seen) && t < |tools| && |seen[t]| < |tools[t]|
      requires AllRead(tools)
      modifies `env
      ensures env == old(env) && Seeing(env.world, tools, more)
      ensures more == seen[t := seen[t] + [env.world]]
    {
      more := seen[t := seen[t] + [env.world]];
      assert tools[t][|seen[t]|](seen[t], env.world) == env.world;
      env := env.(world := tools[t][|seen[t]|](seen[t], env.world));
    }

    /** Run a batch: approvals first, then everything approved together. */
    method RunBatch(calls: seq<Call>, batch: seq<nat>, results: seq<Entry<Answer>>, schedule: seq<nat>,
                    ghost env0: Env<W>, ghost from: nat, ghost to: nat)
      returns (out: seq<Entry<Answer>>)
      requires from <= to && WellDeclared(setup) && AllBatch(setup, calls, from, to) && batch == Positions(from, to)
      requires env == After(setup, env0, calls, from)
      requires multiset(results) == multiset(Entries(setup, env0, calls, 0, from))
      modifies `env
      ensures env == After(setup, env0, calls, to)
      ensures multiset(out) == multiset(Entries(setup, env0, calls, 0, to))
    {
      hide AnswerAt, After, EntriesAt, Entries;
      JoinEntries(setup, env0, calls, from, to);
      BatchKeepsWorld(setup, env0, calls, from, to);
      out := results;
      if batch == [] {
        return;
      }
      var approved: seq<nat>;
      out, approved := ApproveBatch(calls, batch, results, env0, from, to);
      var answers := JoinAll(calls, approved, schedule, env0, from, to);
      out := Collect(calls, approved, answers, out, env0);
    }

    /** Append the answers under their positions. */
    method Collect(calls: seq<Call>, approved: seq<nat>, answers: seq<Answer>, results: seq<Entry<Answer>>, ghost env0: Env<W>)
      returns (out: seq<Entry<Answer>>)
      requires InRange(approved, |calls|) && |answers| == |approved|
      requires forall t :: 0 <= t < |approved| ==> answers[t] == AnswerAt(setup, env0, calls, approved[t])
      ensures multiset(out) == multiset(results) + multiset(EntriesAt(setup, env0, calls, approved))
    {
      hide AnswerAt;
      out := results;
      for t := 0 to |approved|
        invariant out == results + EntriesAt(setup, env0, calls, approved)[..t]
      {
        out := out + [Entry(approved[t], answers[t])];
      }
      var all := EntriesAt(setup, env0, calls, approved);
      assert all[..|approved|] == all;
    }

    /** Remember a call for the progress guard, and say whether it goes in circles. */
    method Watch(call: Call) returns (repeats: bool)
      requires Valid()
      modifies `recent, `history
      ensures Valid() && history == old(history) + [KeyOf(call)]
      ensures repeats <==> Repeats(history)
    {
      hide WellDeclared, LastKeys, Repeats;
      var key := KeyOf(call);
      WindowSlides(history, key);
      history := history + [key];
      recent := recent + [key];
      if |recent| > REPEAT_LIMIT {
        recent := recent[1..];
      }
      WindowShowsRepeats(history, key);
      repeats := |recent| == REPEAT_LIMIT && forall i :: 0 <= i < |recent| ==> recent[i] == key;
    }

    /** Walk the calls of a turn. `interrupt` says at which of them an interruption is
        seen, `schedules` how each batch is interleaved. */
    method CallLoop(calls: seq<Call>, interrupt: nat -> bool, schedules: nat -> seq<nat>, ghost env0: Env<W>)
      returns (results: seq<Entry<Answer>>, stop: Stop)
      requires Valid() && env == env0
      modifies `env, `recent, `history
      ensures Valid() && stop == StopOf(old(history), calls, interrupt, 0)
      ensures history == old(history) + Keys(calls[..if stop.Circles? then stop.n + 1 else stop.n])
      ensures stop.Circles? ==> env == After(setup, env0, calls, BatchStart(setup, calls, stop.n))
      ensures stop.Through? ==>
                && env == After(setup, env0, calls, stop.n)
                && multiset(results) == multiset(Entries(setup, env0, calls, 0, stop.n))
    {
      hide AnswerAt, After, Entries, Repeats, StopOf, BatchStart, Positions, Keys, WellDeclared, LastKeys, Batches;
      NoCalls(setup, env0, calls, old(history), interrupt);
      var batch: seq<nat> := [];
      results := [];
      var i := 0;
      var interrupted := false;
      ghost var from := 0;
      while i < |calls| && !interrupted
        invariant i <= |calls| && Valid() && history == old(history) + Keys(calls[..i])
        invariant from == BatchStart(setup, calls, i) && batch == Positions(from, i)
        invariant env == After(setup, env0, calls, from)
        invariant multiset(results) == multiset(Entries(setup, env0, calls, 0, from))
        invariant StopOf(old(history), calls, interrupt, 0)
                  == if interrupted then Through(i, true) else StopOf(old(history), calls, interrupt, i)
        decreases |calls| - i, !interrupted
      {
        NextCall(setup, old(history), calls, interrupt, i);
        if interrupt(i) {
          interrupted := true;
        } else {
          var repeats := Watch(calls[i]);
          if repeats {
            return results, Circles(i);
          }
          if Batches(setup, calls[i]) {
            batch := batch + [i];
          } else {
            results := RunBatch(calls, batch, results, schedules(i), env0, from, i);
            results := RunSolo(calls, i, results, env0);
            batch := [];
            from := i + 1;
            assert Positions(from, from) == [] by { EmptyBatch(from); }
          }
          i := i + 1;
        }
      }
      results := RunBatch(calls, batch, results, schedules(i), env0, from, i);
      stop := Through(i, interrupted);
    }

    /** A call that cannot share a batch runs by itself. */
    method RunSolo(calls: seq<Call>, i: nat, results: seq<Entry<Answer>>, ghost env0: Env<W>) returns (out: seq<Entry<Answer>>)
      requires i < |calls| && env == After(setup, env0, calls, i)
      requires multiset(results) == multiset(Entries(setup, env0, calls, 0, i))
      modifies `env
      ensures env == After(setup, env0, calls, i + 1)
      ensures multiset(out) == multiset(Entries(setup, env0, calls, 0, i + 1))
    {
      OneMoreEntry(setup, env0, calls, 0, i);
      var answer := Dispatch(i, calls[i]);
      out := results + [Entry(i, answer)];
    }

    /** Append the results in call order, up to the first failure that ends the run. */
    method AppendResults(calls: seq<Call>, sorted: seq<Entry<Answer>>, ghost answers: seq<Answer>) returns (failed: Option<nat>)
      requires |sorted| == |answers| <= |calls|
      requires forall i :: 0 <= i < |sorted| ==> sorted[i] == Entry(i, answers[i])
      modifies `messages
      ensures messages == old(messages) + ResultsOf(calls, answers)
      ensures failed == FirstFatal(answers)
    {
      var i := 0;
      assert calls[0..] == calls && answers[0..] == answers;
      while i < |sorted|
        invariant i <= |sorted|
        invariant messages + ResultsOf(calls[i..], answers[i..]) == old(messages) + ResultsOf(calls, answers)
        invariant FirstFatal(answers) == Shifted(i, FirstFatal(answers[i..]))
      {
        NextResult(calls, answers, i);
        var told := Told(sorted[i].value);
        if told.None? {
          assert messages + [] == messages;
          return Some(i);
        }
        ghost var message := ResultMessage(calls[i], told.value);
        ghost var rest := ResultsOf(calls[i + 1..], answers[i + 1..]);
        assert messages + ([message] + rest) == (messages + [message]) + rest;
        messages := messages + [ResultMessage(calls[i], told.value)];
        i := i + 1;
      }
      assert messages + [] == messages;
      failed := None;
    }

    /** A run watches its own calls only. */
    method Restart()
      requires Valid()
      modifies `recent, `history
      ensures Valid() && history == []
    {
      recent, history := [], [];
    }

    /** One round: record what was asked, run it, and record what came back. */
    method RunRound(calls: seq<Call>, interrupt: nat -> bool, schedules: nat -> seq<nat>) returns (end: RoundEnd)
      requires Valid()
      modifies this
      ensures Valid()
      ensures var stop := StopOf(old(history), calls, interrupt, 0);
              var env0 := old(env).(ran := multiset{});
              var asked := old(messages) + [AskedFor(calls)];
              && history == old(history) + Keys(calls[..if stop.Circles? then stop.n + 1 else stop.n])
              && match stop
                 case Circles(n) =>
                   && end == GaveUp(calls[n].name)
                   && env == After(setup, env0, calls, BatchStart(setup, calls, n))
                   && messages == asked
                 case Through(n, _) =>
                   && env == After(setup, env0, calls, n)
                   && messages == asked + ResultsOf(calls, Answers(setup, env0, calls, n))
                   && end == EndOf(calls, Answers(setup, env0, calls, n))
    {
      hide AnswerAt, After, Entries, Repeats, StopOf, BatchStart, Keys, WellDeclared, LastKeys, SortByPosition, ResultsOf, FirstFatal;
      env := env.(ran := multiset{});
      ghost var env0 := env;
      messages := messages + [AskedFor(calls)];
      var results, stop := CallLoop(calls, interrupt, schedules, env0);
      if stop.Circles? {
        return GaveUp(calls[stop.n].name);
      }
      EntriesNumbered(setup, env0, calls, stop.n);
      SortedIsNumbered(results, Entries(setup, env0, calls, 0, stop.n));
      var sorted := SortByPosition(results);
      var failed := AppendResults(calls, sorted, Answers(setup, env0, calls, stop.n));
      if failed.Some? {
        FatalIsError(Answers(setup, env0, calls, stop.n));
        return Fails(calls[failed.value].name, sorted[failed.value].value.error);
      }
      end := Continues;
    }
  }
}
