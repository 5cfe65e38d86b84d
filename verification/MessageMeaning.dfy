/** What the parts of a message keep of what was streamed: every sample, every word, in the
    order they came, and of the whitespace all but the template's. */
module MessageMeaning {
  import opened Wrappers
  import opened BatchParts
  import opened AssemblyStep

  // ── Marks ─────────────────────────────────────────────────────────────────

  /** One letter on its channel, or one sample at its rate. */
  datatype Mark = Letter(channel: Channel, c: char) | Sample(rate: nat, value: int)

  /** The margin there can be on a channel at all. */
  predicate IsMargin(channel: Channel, c: char) {
    match channel
    case Text => c == '\n'
    case Reasoning => IsWhite(c)
  }

  /** The letters of `s` that cannot be margin. */
  function Core(channel: Channel, s: string): seq<Mark> {
    if s == "" then []
    else Core(channel, s[..|s| - 1]) + if IsMargin(channel, s[|s| - 1]) then [] else [Letter(channel, s[|s| - 1])]
  }

  function Samples(rate: nat, samples: seq<int>): seq<Mark> {
    seq(|samples|, i requires 0 <= i < |samples| => Sample(rate, samples[i]))
  }

  function MarksOfItem(item: Item): seq<Mark> {
    match item
    case Emission(channel, text) => Core(channel, text)
    case Speech(rate, samples) => Samples(rate, samples)
  }

  function MarksOfPart(part: Part): seq<Mark> {
    match part
    case TextPart(text) => Core(Text, text)
    case ReasoningPart(text) => Core(Reasoning, text)
    case SpeechPart(rate, samples) => Samples(rate, samples)
  }

  /** All that was streamed, mark by mark. */
  function Streamed(items: seq<Item>): seq<Mark> {
    if items == [] then [] else Streamed(items[..|items| - 1]) + MarksOfItem(items[|items| - 1])
  }

  /** All that a message holds. */
  function Held(parts: seq<Part>): seq<Mark> {
    if parts == [] then [] else Held(parts[..|parts| - 1]) + MarksOfPart(parts[|parts| - 1])
  }

  lemma {:induction false} CoreOfTwo(channel: Channel, s: string, t: string)
    ensures Core(channel, s + t) == Core(channel, s) + Core(channel, t)
    decreases |t|
  {
    if t == "" {
      assert s + t == s;
      assert Core(channel, s) + [] == Core(channel, s);
    } else {
      var most, last := t[..|t| - 1], t[|t| - 1];
      CoreOfTwo(channel, s, most);
      assert (s + t)[..|s + t| - 1] == s + most && (s + t)[|s + t| - 1] == last;
      Reassociate(Core(channel, s), Core(channel, most), if IsMargin(channel, last) then [] else [Letter(channel, last)]);
    }
  }

  lemma {:induction false} NothingButMargin(channel: Channel, s: string)
    requires forall i :: 0 <= i < |s| ==> IsMargin(channel, s[i])
    ensures Core(channel, s) == []
  {
    if s != "" {
      NothingButMargin(channel, s[..|s| - 1]);
    }
  }

  lemma {:induction false} OneMoreHeld(parts: seq<Part>, part: Part)
    ensures Held(parts + [part]) == Held(parts) + MarksOfPart(part)
  {
    assert (parts + [part])[..|parts|] == parts;
  }

  // ── Runs ──────────────────────────────────────────────────────────────────

  function MarksOfRun(run: Run): seq<Mark> {
    match run
    case Words(channel, text) => Core(channel, text)
    case Sound(rate, samples) => Samples(rate, samples)
  }

  function InRuns(runs: seq<Run>): seq<Mark> {
    if runs == [] then [] else InRuns(runs[..|runs| - 1]) + MarksOfRun(runs[|runs| - 1])
  }

  lemma {:induction false} OneMoreInRuns(runs: seq<Run>, run: Run)
    ensures InRuns(runs + [run]) == InRuns(runs) + MarksOfRun(run)
  {
    assert (runs + [run])[..|runs|] == runs;
  }

  lemma {:induction false} AddKeepsMarks(runs: seq<Run>, item: Item)
    ensures InRuns(AddItem(runs, item)) == InRuns(runs) + MarksOfItem(item)
  {
    hide InRuns, Core;
    match item {
      case Speech(rate, samples) => OneMoreInRuns(runs, Sound(rate, samples));
      case Emission(channel, text) =>
        if Continues(runs, channel) {
          var most, last := runs[..|runs| - 1], runs[|runs| - 1];
          assert runs == most + [last];
          OneMoreInRuns(most, last);
          OneMoreInRuns(most, Words(channel, last.text + text));
          CoreOfTwo(channel, last.text, text);
          Reassociate(InRuns(most), Core(channel, last.text), Core(channel, text));
        } else {
          OneMoreInRuns(runs, Words(channel, text));
        }
    }
  }

  lemma {:induction false} RunsKeepMarks(items: seq<Item>)
    ensures InRuns(Runs(items)) == Streamed(items)
  {
    if items != [] {
      RunsKeepMarks(items[..|items| - 1]);
      AddKeepsMarks(Runs(items[..|items| - 1]), items[|items| - 1]);
    }
  }

  // ── Parts ─────────────────────────────────────────────────────────────────

  lemma {:induction false} StartKeepsCore(channel: Channel, scaffolded: bool, s: string)
    ensures Core(channel, TrimStart(MarginOf(channel, scaffolded), s)) == Core(channel, s)
  {
    var r := TrimStart(MarginOf(channel, scaffolded), s);
    TrimStartMeaning(MarginOf(channel, scaffolded), s);
    var head := s[..|s| - |r|];
    NothingButMargin(channel, head);
    assert s == head + r;
    hide Core, TrimStart;
    CoreOfTwo(channel, head, r);
  }

  lemma {:induction false} EndKeepsCore(s: string)
    ensures Core(Reasoning, TrimEnd(s)) == Core(Reasoning, s)
  {
    var r := TrimEnd(s);
    TrimEndMeaning(s);
    var tail := s[|r|..];
    NothingButMargin(Reasoning, tail);
    assert s == r + tail;
    hide Core, TrimEnd;
    CoreOfTwo(Reasoning, r, tail);
  }

  /** What a run shows is what it holds, but for margin at its ends. */
  lemma {:induction false} ShownKeepsMarks(run: Run, scaffolded: bool)
    ensures MarksOfPart(Shown(run, scaffolded)) == MarksOfRun(run)
  {
    hide Core, TrimStart, TrimEnd, MarginOf;
    if run.Words? {
      StartKeepsCore(run.channel, scaffolded, run.text);
      if run.channel == Reasoning {
        EndKeepsCore(Content(run, scaffolded));
      }
    }
  }

  lemma {:induction false} AppendKeepsMarks(parts: seq<Part>, part: Part)
    ensures Held(Append(parts, part)) == Held(parts) + MarksOfPart(part)
  {
    hide Held;
    if SameSound(parts, part) {
      var most, last := parts[..|parts| - 1], parts[|parts| - 1];
      var joined := SpeechPart(part.rate, last.samples + part.samples);
      assert parts == most + [last];
      OneMoreHeld(most, last);
      OneMoreHeld(most, joined);
      assert Samples(part.rate, last.samples + part.samples) == Samples(part.rate, last.samples) + Samples(part.rate, part.samples);
      Reassociate(Held(most), MarksOfPart(last), MarksOfPart(part));
    } else {
      OneMoreHeld(parts, part);
    }
  }

  lemma {:induction false} EmptyHoldsNothing(part: Part, held: seq<Mark>)
    requires IsEmpty(part)
    ensures held + MarksOfPart(part) == held
  {}

  lemma {:induction false} NoRuns()
    ensures PartsOf([]) == [] && Held([]) == [] && InRuns([]) == [] && !HasReasoning([])
  {}

  lemma {:induction false} PartsKeepMarks(runs: seq<Run>)
    ensures Held(PartsOf(runs)) == InRuns(runs)
  {
    hide PartsOf, Held, InRuns, MarksOfPart, MarksOfRun, Shown, HasReasoning, Append;
    if runs == [] {
      NoRuns();
    } else {
      var most, last := runs[..|runs| - 1], runs[|runs| - 1];
      var shown := Shown(last, HasReasoning(most));
      PartsKeepMarks(most);
      assert runs == most + [last];
      PartsOfOneMore(most, last);
      ShownKeepsMarks(last, HasReasoning(most));
      OneMoreInRuns(most, last);
      if IsEmpty(shown) {
        EmptyHoldsNothing(shown, Held(PartsOf(most)));
      } else {
        AppendKeepsMarks(PartsOf(most), shown);
      }
    }
  }

  /** A message holds exactly what was streamed, in its order: every sample at its rate,
      every letter of the visible text but newlines, and every letter of the reasoning but
      whitespace. */
  lemma {:induction false} EverythingIsKept(items: seq<Item>)
    ensures Held(PartsOf(Runs(items))) == Streamed(items)
  {
    PartsKeepMarks(Runs(items));
    RunsKeepMarks(items);
  }

  lemma {:induction false} OneMorePart(parts: seq<Part>, part: Part, channel: Channel)
    ensures AllWords(parts + [part], channel) == AllWords(parts, channel) + WordsOf(part, channel)
  {
    assert (parts + [part])[..|parts|] == parts;
  }

  lemma {:induction false} NoWordsMore(parts: seq<Part>, channel: Channel)
    ensures AllWords(parts, channel) + "" == AllWords(parts, channel)
  {}

  /** One more run adds to the words of a message what it shows. */
  lemma {:induction false} WordsOfOneMore(runs: seq<Run>, run: Run, channel: Channel)
    ensures AllWords(PartsOf(runs + [run]), channel)
            == AllWords(PartsOf(runs), channel) + WordsOf(Shown(run, HasReasoning(runs)), channel)
  {
    hide PartsOf, AllWords, Shown, HasReasoning;
    var parts, shown := PartsOf(runs), Shown(run, HasReasoning(runs));
    PartsOfOneMore(runs, run);
    NoWordsMore(parts, channel);
    if SameSound(parts, shown) {
      var most, last := parts[..|parts| - 1], parts[|parts| - 1];
      assert parts == most + [last];
      OneMorePart(most, last, channel);
      OneMorePart(most, SpeechPart(shown.rate, last.samples + shown.samples), channel);
    } else {
      OneMorePart(parts, shown, channel);
    }
  }

  /** A message that never reasons is what was said, to the letter. */
  lemma {:induction false} PlainTextIsVerbatim(runs: seq<Run>)
    requires !HasReasoning(runs)
    ensures AllWords(PartsOf(runs), Text) == SaidInRuns(runs, Text)
  {
    if runs != [] {
      var most, last := runs[..|runs| - 1], runs[|runs| - 1];
      assert forall i :: 0 <= i < |most| ==> runs[i] == most[i];
      assert runs == most + [last] && runs[|most|] == last;
      PlainTextIsVerbatim(most);
      assert last.Words? ==> last.channel == Text && Body(last, false) == last.text;
      hide PartsOf, AllWords, SaidInRuns, HasReasoning;
      WordsOfOneMore(most, last, Text);
      SaidOneMore(most, last, Text);
    }
  }

  // ── A message that thinks ─────────────────────────────────────────────────

  predicate AllWhite(s: string) {
    forall i :: 0 <= i < |s| ==> IsWhite(s[i])
  }

  predicate OnlyNewlines(s: string) {
    forall i :: 0 <= i < |s| ==> s[i] == '\n'
  }

  lemma {:induction false} TrimsStart(margin: Margin, pad: string, s: string)
    requires forall i :: 0 <= i < |pad| ==> Strips(margin, pad[i])
    requires s != "" ==> !Strips(margin, s[0])
    ensures TrimStart(margin, pad + s) == s
  {
    if pad == "" {
      assert pad + s == s;
    } else {
      assert (pad + s)[1..] == pad[1..] + s && (pad + s)[0] == pad[0];
      TrimsStart(margin, pad[1..], s);
    }
  }

  lemma {:induction false} TrimsEnd(s: string, pad: string)
    requires AllWhite(pad) && (s != "" ==> !IsWhite(s[|s| - 1]))
    ensures TrimEnd(s + pad) == s
    decreases |pad|
  {
    TrimEndBehind(s, pad);
    AllWhiteTrims(pad);
    assert s + "" == s;
  }

  lemma {:induction false} AllWhiteTrims(s: string)
    requires AllWhite(s)
    ensures TrimEnd(s) == ""
  {
    if s != "" {
      AllWhiteTrims(s[..|s| - 1]);
    }
  }

  lemma {:induction false} ShownThought(front: string, thought: string, back: string, scaffolded: bool)
    requires AllWhite(front) && AllWhite(back) && Clean(thought)
    ensures Shown(Words(Reasoning, front + thought + back), scaffolded) == ReasoningPart(thought)
  {
    assert front + thought + back == front + (thought + back);
    TrimsStart(Whitespace, front, thought + back);
    TrimsEnd(thought, back);
  }

  lemma {:induction false} ShownAnswer(newlines: string, answer: string)
    requires OnlyNewlines(newlines) && NoNewline(answer)
    ensures Shown(Words(Text, newlines + answer), true) == TextPart(answer)
  {
    TrimsStart(Newlines, newlines, answer);
  }

  /** A thought between two stretches of text: the thought without the whitespace around
      it, the text before it as it is, and the text behind it without the newlines in
      front. */
  lemma {:induction false} ThoughtBetween(before: string, front: string, thought: string, back: string, newlines: string, answer: string)
    requires AllWhite(front) && AllWhite(back) && Clean(thought)
    requires OnlyNewlines(newlines) && NoNewline(answer)
    ensures PartsOf([Words(Text, before), Words(Reasoning, front + thought + back), Words(Text, newlines + answer)])
            == (if before == "" then [] else [TextPart(before)]) + [ReasoningPart(thought), TextPart(answer)]
  {
    hide PartsOf, Shown, HasReasoning, AllWhite, OnlyNewlines;
    var none: seq<Run> := [];
    var first, second, third := Words(Text, before), Words(Reasoning, front + thought + back), Words(Text, newlines + answer);
    var one, two := [first], [first, second];
    NoRuns();
    ShownText(before);
    ShownThought(front, thought, back, false);
    ShownAnswer(newlines, answer);
    ReasoningComesSecond(before, front + thought + back);
    assert none + [first] == one && one + [second] == two && two + [third] == [first, second, third];
    PartsOfOneMore(none, first);
    PartsOfOneMore(one, second);
    PartsOfOneMore(two, third);
  }

  /** The same without text before it. */
  lemma {:induction false} ThoughtAlone(front: string, thought: string, back: string, newlines: string, answer: string)
    requires AllWhite(front) && AllWhite(back) && Clean(thought)
    requires OnlyNewlines(newlines) && NoNewline(answer)
    ensures PartsOf([Words(Reasoning, front + thought + back), Words(Text, newlines + answer)])
            == [ReasoningPart(thought), TextPart(answer)]
  {
    hide PartsOf, Shown, AllWhite, OnlyNewlines;
    var none: seq<Run> := [];
    var first, second := Words(Reasoning, front + thought + back), Words(Text, newlines + answer);
    var one := [first];
    NoRuns();
    ShownThought(front, thought, back, false);
    ShownAnswer(newlines, answer);
    assert one[0] == first && HasReasoning(one);
    assert none + [first] == one && one + [second] == [first, second];
    PartsOfOneMore(none, first);
    PartsOfOneMore(one, second);
  }

  lemma {:induction false} ShownText(text: string)
    ensures Shown(Words(Text, text), false) == TextPart(text)
  {}

  lemma {:induction false} ReasoningComesSecond(before: string, thought: string)
    ensures !HasReasoning([Words(Text, before)]) && HasReasoning([Words(Text, before), Words(Reasoning, thought)])
  {
    assert [Words(Text, before), Words(Reasoning, thought)][1].channel == Reasoning;
  }
}
