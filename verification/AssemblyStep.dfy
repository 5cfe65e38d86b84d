/** The incremental counterpart of BatchParts: how one slice changes the parts, and the
    deltas that spell the parts out. */
module AssemblyStep {
  import opened Wrappers
  import opened BatchParts

  // ── Deltas ────────────────────────────────────────────────────────────────

  predicate SameKind(p: Part, d: Part) {
    match p
    case TextPart(_) => d.TextPart?
    case ReasoningPart(_) => d.ReasoningPart?
    case SpeechPart(rate, _) => d.SpeechPart? && d.rate == rate
  }

  function Join(p: Part, d: Part): Part
    requires SameKind(p, d)
  {
    match p
    case TextPart(t) => TextPart(t + d.text)
    case ReasoningPart(t) => ReasoningPart(t + d.text)
    case SpeechPart(rate, samples) => SpeechPart(rate, samples + d.samples)
  }

  function JoinAll(group: seq<Part>): Option<Part> {
    if group == [] then None
    else if |group| == 1 then Some(group[0])
    else
      var most, last := JoinAll(group[..|group| - 1]), group[|group| - 1];
      if most.Some? && SameKind(most.value, last) then Some(Join(most.value, last)) else None
  }

  /** The deltas of a group, in order, make up the part, and each of them adds to it. */
  ghost predicate Spells(group: seq<Part>, part: Part) {
    JoinAll(group) == Some(part) && forall i :: 0 <= i < |group| ==> !IsEmpty(group[i])
  }

  /** One group of deltas for each part. */
  ghost predicate Grouped(groups: seq<seq<Part>>, parts: seq<Part>) {
    |groups| == |parts| && forall i :: 0 <= i < |groups| ==> Spells(groups[i], parts[i])
  }

  function Flatten(groups: seq<seq<Part>>): seq<Part> {
    if groups == [] then [] else Flatten(groups[..|groups| - 1]) + groups[|groups| - 1]
  }

  predicate CanGrow(parts: seq<Part>, delta: Part, begins: bool) {
    begins || (parts != [] && SameKind(parts[|parts| - 1], delta))
  }

  /** A delta either begins a part or continues the last one; nothing else moves. */
  function Grow(parts: seq<Part>, delta: Part, begins: bool): seq<Part>
    requires CanGrow(parts, delta, begins)
  {
    if begins then parts + [delta] else parts[..|parts| - 1] + [Join(parts[|parts| - 1], delta)]
  }

  function GrowGroups(groups: seq<seq<Part>>, delta: Part, begins: bool): seq<seq<Part>>
    requires begins || groups != []
  {
    if begins then groups + [[delta]] else groups[..|groups| - 1] + [groups[|groups| - 1] + [delta]]
  }

  lemma {:induction false} GrowKeepsGroups(groups: seq<seq<Part>>, parts: seq<Part>, delta: Part, begins: bool)
    requires Grouped(groups, parts) && CanGrow(parts, delta, begins) && !IsEmpty(delta)
    ensures Grouped(GrowGroups(groups, delta, begins), Grow(parts, delta, begins))
    ensures Flatten(GrowGroups(groups, delta, begins)) == Flatten(groups) + [delta]
  {
    var out := GrowGroups(groups, delta, begins);
    if begins {
      assert out[..|groups|] == groups;
      assert Spells([delta], delta);
    } else {
      var last := |groups| - 1;
      assert out[..last] == groups[..last];
      assert (groups[last] + [delta])[..|groups[last]|] == groups[last];
      assert Spells(groups[last] + [delta], Join(parts[last], delta));
    }
  }

  /** What a part says on a channel. */
  function WordsOf(part: Part, channel: Channel): string {
    match part
    case TextPart(t) => if channel == Text then t else ""
    case ReasoningPart(t) => if channel == Reasoning then t else ""
    case SpeechPart(_, _) => ""
  }

  function AllWords(parts: seq<Part>, channel: Channel): string {
    if parts == [] then "" else AllWords(parts[..|parts| - 1], channel) + WordsOf(parts[|parts| - 1], channel)
  }

  lemma {:induction false} AllWordsOfTwo(a: seq<Part>, b: seq<Part>, channel: Channel)
    ensures AllWords(a + b, channel) == AllWords(a, channel) + AllWords(b, channel)
    decreases |b|
  {
    if b == [] {
      assert a + b == a;
    } else {
      var most, last := b[..|b| - 1], b[|b| - 1];
      AllWordsOfTwo(a, most, channel);
      assert (a + b)[..|a + b| - 1] == a + most && (a + b)[|a + b| - 1] == last;
      Reassociate(AllWords(a, channel), AllWords(most, channel), WordsOf(last, channel));
    }
  }

  lemma {:induction false} SpelledWords(group: seq<Part>, part: Part, channel: Channel)
    requires Spells(group, part)
    ensures AllWords(group, channel) == WordsOf(part, channel)
    decreases |group|
  {
    var most, last := group[..|group| - 1], group[|group| - 1];
    if |group| == 1 {
      assert most == [];
    } else {
      SpelledWords(most, JoinAll(most).value, channel);
    }
  }

  /** The text deltas together are the visible reply of the message, and the reasoning
      deltas its reasoning. */
  lemma {:induction false} DeltasSpellTheMessage(groups: seq<seq<Part>>, parts: seq<Part>, channel: Channel)
    requires Grouped(groups, parts)
    ensures AllWords(Flatten(groups), channel) == AllWords(parts, channel)
    decreases |parts|
  {
    if parts != [] {
      var last := |parts| - 1;
      DeltasSpellTheMessage(groups[..last], parts[..last], channel);
      SpelledWords(groups[last], parts[last], channel);
      AllWordsOfTwo(Flatten(groups[..last]), groups[last], channel);
    }
  }

  // ── One slice ─────────────────────────────────────────────────────────────

  /** The channel of the run that is open: the last run, when it shows anything. */
  function OpenOf(runs: seq<Run>): Option<Channel> {
    if runs != [] && LastBody(runs) != "" then Some(runs[|runs| - 1].channel) else None
  }

  /** What the last run shows, if it is not speech. */
  function LastBody(runs: seq<Run>): (body: string)
    requires runs != []
    ensures body != "" ==> runs[|runs| - 1].Words?
  {
    var last := runs[|runs| - 1];
    if last.Words? then Body(last, HasReasoning(runs[..|runs| - 1])) else ""
  }

  /** The whitespace behind what a run shows. */
  function Trailing(run: Run, scaffolded: bool): string
    requires run.Words?
  {
    Content(run, scaffolded)[|Body(run, scaffolded)|..]
  }

  /** The trailing whitespace of the open run that is waiting for more. */
  function HeldOf(runs: seq<Run>): string {
    if OpenOf(runs).None? then ""
    else
      var last := runs[|runs| - 1];
      var late := HasReasoning(runs[..|runs| - 1]);
      Trailing(last, late)
  }

  /** What one slice adds: whether it begins a part, what it shows, what it holds back. */
  datatype Absorbed = Absorbed(begins: bool, grown: string, held: string)

  function Absorb(open: Option<Channel>, held: string, scaffolded: bool, channel: Channel, text: string): Absorbed {
    var begins := open != Some(channel);
    Settle(channel, begins, if begins then TrimStart(MarginOf(channel, scaffolded), text) else held + text)
  }

  function Settle(channel: Channel, begins: bool, chunk: string): Absorbed {
    var grown := if channel == Reasoning then TrimEnd(chunk) else chunk;
    Absorbed(begins, grown, chunk[|grown|..])
  }

  lemma {:induction false} ReasoningIsKnown(runs: seq<Run>, channel: Channel, text: string)
    ensures HasReasoning(AddItem(runs, Emission(channel, text))) <==> HasReasoning(runs) || channel == Reasoning
  {
    var out := AddItem(runs, Emission(channel, text));
    assert out[|out| - 1].channel == channel;
    if Continues(runs, channel) {
      assert forall i :: 0 <= i < |runs| ==> out[i].Words? == runs[i].Words? && (out[i].Words? ==> out[i].channel == runs[i].channel);
    } else {
      assert forall i :: 0 <= i < |runs| ==> out[i] == runs[i];
    }
  }

  /** A trimmed run that shows nothing has no content at all. */
  lemma {:induction false} NothingShown(run: Run, late: bool)
    requires run.Words? && Body(run, late) == ""
    ensures Content(run, late) == ""
  {
    TrimStartMeaning(MarginOf(run.channel, late), run.text);
    TrimEndMeaning(Content(run, late));
  }

  lemma {:induction false} TrimEndContinues(content: string, more: string)
    ensures var body := TrimEnd(content);
            TrimEnd(content + more) == body + TrimEnd(content[|body|..] + more)
  {
    var body := TrimEnd(content);
    TrimEndMeaning(content);
    TrimEndBehind(body, content[|body|..] + more);
    Resplit(content, |body|, more, 0);
  }

  lemma {:induction false} Resplit(s: string, k: nat, more: string, cut: nat)
    requires k <= |s| && cut <= |s[k..] + more|
    ensures s + more == s[..k] + (s[k..] + more)
    ensures s + more == s[..k] + (s[k..] + more)[..cut] + (s[k..] + more)[cut..]
  {}

  /** More reasoning behind some that is shown. */
  lemma {:induction false} ReasoningContinues(content: string, more: string)
    ensures var body := TrimEnd(content);
            var a := Settle(Reasoning, false, content[|body|..] + more);
            && TrimEnd(content + more) == body + a.grown
            && content + more == TrimEnd(content + more) + a.held
  {
    var body := TrimEnd(content);
    TrimEndContinues(content, more);
    Resplit(content, |body|, more, |TrimEnd(content[|body|..] + more)|);
  }

  /** More text behind a run that shows something. */
  lemma {:induction false} BodyContinues(channel: Channel, text: string, late: bool, more: string)
    requires Body(Words(channel, text), late) != ""
    ensures var before, after := Words(channel, text), Words(channel, text + more);
            var a := Settle(channel, false, Trailing(before, late) + more);
            && Body(after, late) == Body(before, late) + a.grown
            && Content(after, late) == Body(after, late) + a.held
  {
    TrimStartInTwo(MarginOf(channel, late), text, more);
    var content := Content(Words(channel, text), late);
    if channel == Reasoning {
      ReasoningContinues(content, more);
    } else {
      assert content[|content|..] + more == more;
    }
  }

  /** More text behind a run that shows nothing is as if it began there. */
  lemma {:induction false} BodyBegins(channel: Channel, text: string, late: bool, more: string)
    requires Body(Words(channel, text), late) == ""
    ensures Content(Words(channel, text + more), late) == TrimStart(MarginOf(channel, late), more)
    ensures Body(Words(channel, text + more), late) == Body(Words(channel, more), late)
  {
    NothingShown(Words(channel, text), late);
    TrimStartInTwo(MarginOf(channel, late), text, more);
  }

  /** The last run of `most + [run]` decides what is open and what is held. */
  lemma {:induction false} LastRunDecides(most: seq<Run>, channel: Channel, text: string)
    ensures var runs, run, late := most + [Words(channel, text)], Words(channel, text), HasReasoning(most);
            && OpenOf(runs) == (if Body(run, late) == "" then None else Some(channel))
            && (Body(run, late) != "" ==> HeldOf(runs) == Trailing(run, late))
            && PartsOf(runs) == (if Body(run, late) == "" then PartsOf(most)
                                 else PartsOf(most) + [PartOf(channel, Body(run, late))])
  {
    var runs := most + [Words(channel, text)];
    assert runs[..|most|] == most;
    PartsOfOneMore(most, Words(channel, text));
  }

  /** What a slice must do to the parts, to the open run and to what is held. */
  ghost predicate Absorbs(parts: seq<Part>, after: seq<Part>, open: Option<Channel>, held: string, channel: Channel, a: Absorbed) {
    && open == (if a.begins && a.grown == "" then None else Some(channel))
    && held == a.held
    && CanGrow(parts, PartOf(channel, a.grown), a.begins)
    && after == (if a.grown == "" then parts else Grow(parts, PartOf(channel, a.grown), a.begins))
  }

  lemma {:induction false} GrowLast(most: seq<Part>, channel: Channel, body: string, grown: string)
    ensures var parts, delta := most + [PartOf(channel, body)], PartOf(channel, grown);
            && CanGrow(parts, delta, false)
            && most + [PartOf(channel, body + grown)] == (if grown == "" then parts else Grow(parts, delta, false))
  {
    var parts := most + [PartOf(channel, body)];
    assert parts[..|parts| - 1] == most;
    assert body + "" == body;
  }

  lemma {:induction false} AbsorbContinuing(most: seq<Run>, channel: Channel, text: string, more: string)
    requires OpenOf(most + [Words(channel, text)]) == Some(channel)
    ensures var runs, after := most + [Words(channel, text)], most + [Words(channel, text + more)];
            Absorbs(PartsOf(runs), PartsOf(after), OpenOf(after), HeldOf(after), channel,
                    Settle(channel, false, HeldOf(runs) + more))
  {
    var late := HasReasoning(most);
    LastRunDecides(most, channel, text);
    LastRunDecides(most, channel, text + more);
    BodyContinues(channel, text, late, more);
    var body, a := Body(Words(channel, text), late), Settle(channel, false, Trailing(Words(channel, text), late) + more);
    GrowLast(PartsOf(most), channel, body, a.grown);
  }

  lemma {:induction false} SameMargin(most: seq<Run>, channel: Channel, text: string)
    ensures MarginOf(channel, HasReasoning(most + [Words(channel, text)]) || channel == Reasoning)
            == MarginOf(channel, HasReasoning(most))
  {
    var runs := most + [Words(channel, text)];
    assert forall i :: 0 <= i < |most| ==> runs[i] == most[i];
  }

  /** A run that shows what `more` shows once trimmed, behind others. */
  lemma {:induction false} AbsorbBeginning(most: seq<Run>, channel: Channel, text: string, more: string)
    requires Content(Words(channel, text), HasReasoning(most)) == TrimStart(MarginOf(channel, HasReasoning(most)), more)
    ensures var after := most + [Words(channel, text)];
            Absorbs(PartsOf(most), PartsOf(after), OpenOf(after), HeldOf(after), channel,
                    Settle(channel, true, TrimStart(MarginOf(channel, HasReasoning(most)), more)))
  {
    LastRunDecides(most, channel, text);
    if Body(Words(channel, text), HasReasoning(most)) == "" {
      NothingShown(Words(channel, text), HasReasoning(most));
    }
  }

  /** The last run shows nothing yet, so it is as good as not there. */
  lemma {:induction false} AbsorbRestarting(most: seq<Run>, channel: Channel, text: string, more: string)
    requires OpenOf(most + [Words(channel, text)]) != Some(channel)
    ensures var runs, after := most + [Words(channel, text)], most + [Words(channel, text + more)];
            Absorbs(PartsOf(runs), PartsOf(after), OpenOf(after), HeldOf(after), channel,
                    Settle(channel, true, TrimStart(MarginOf(channel, HasReasoning(most)), more)))
  {
    LastRunDecides(most, channel, text);
    BodyBegins(channel, text, HasReasoning(most), more);
    AbsorbBeginning(most, channel, text + more, more);
  }

  /** The incremental treatment of a slice agrees with the batch computation. */
  lemma {:induction false} AbsorbAgrees(runs: seq<Run>, channel: Channel, more: string)
    ensures var after := AddItem(runs, Emission(channel, more));
            Absorbs(PartsOf(runs), PartsOf(after), OpenOf(after), HeldOf(after), channel,
                    Absorb(OpenOf(runs), HeldOf(runs), HasReasoning(runs) || channel == Reasoning, channel, more))
  {
    if Continues(runs, channel) {
      var most, last := runs[..|runs| - 1], runs[|runs| - 1];
      assert runs == most + [Words(channel, last.text)];
      if OpenOf(runs) == Some(channel) {
        AbsorbContinuing(most, channel, last.text, more);
      } else {
        SameMargin(most, channel, last.text);
        AbsorbRestarting(most, channel, last.text, more);
      }
    } else {
      OpenMeansContinues(runs, channel);
      AbsorbBeginning(runs, channel, more, more);
    }
  }

  lemma {:induction false} OpenMeansContinues(runs: seq<Run>, channel: Channel)
    ensures OpenOf(runs) == Some(channel) ==> Continues(runs, channel)
  {}

  /** Held whitespace shows nothing by itself. */
  lemma {:induction false} HeldShowsNothing(runs: seq<Run>)
    requires OpenOf(runs).Some?
    ensures var a := Settle(OpenOf(runs).value, false, HeldOf(runs));
            a.grown == "" && a.held == HeldOf(runs)
    ensures OpenOf(runs).value == Text ==> HeldOf(runs) == ""
  {
    var last, late := runs[|runs| - 1], HasReasoning(runs[..|runs| - 1]);
    if last.channel == Reasoning {
      var content := Content(last, late);
      TrimEndMeaning(content);
      AllWhite(content[|TrimEnd(content)|..]);
    }
  }

  lemma {:induction false} AllWhite(s: string)
    requires forall i :: 0 <= i < |s| ==> IsWhite(s[i])
    ensures TrimEnd(s) == ""
  {
    if s != "" {
      AllWhite(s[..|s| - 1]);
    }
  }

  /** Speech ends the run before it, and joins speech of its rate. */
  lemma {:induction false} SpeechAgrees(runs: seq<Run>, rate: nat, samples: seq<int>)
    ensures var after := AddItem(runs, Speech(rate, samples));
            && OpenOf(after) == None && HeldOf(after) == ""
            && HasReasoning(after) == HasReasoning(runs)
            && var delta := SpeechPart(rate, samples);
               PartsOf(after) == Grow(PartsOf(runs), delta, !SameSound(PartsOf(runs), delta))
  {
    PartsOfOneMore(runs, Sound(rate, samples));
    var after := runs + [Sound(rate, samples)];
    assert forall i :: 0 <= i < |runs| ==> after[i] == runs[i];
  }
}
