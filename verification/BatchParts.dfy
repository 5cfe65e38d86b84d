/** What a stream of channel-tagged slices and speech chunks amounts to, computed from
    the whole of it at once: the reference that the incremental assembly of
    src/api/event.rs is proved against. */
module BatchParts {
  import opened Wrappers

  datatype Channel = Text | Reasoning

  /** One slice from the marker scanner, or one chunk of speech. */
  datatype Item = Emission(channel: Channel, text: string) | Speech(rate: nat, samples: seq<int>)

  /** A piece of the assistant message; a delta is such a piece too. */
  datatype Part = TextPart(text: string) | ReasoningPart(text: string) | SpeechPart(rate: nat, samples: seq<int>)

  // ── Trimming ──────────────────────────────────────────────────────────────

  /** The Unicode White_Space property. */
  predicate IsWhite(c: char) {
    || '\U{9}' <= c <= '\U{D}' || c == ' ' || c == '\U{85}' || c == '\U{A0}' || c == '\U{1680}'
    || '\U{2000}' <= c <= '\U{200A}' || c == '\U{2028}' || c == '\U{2029}' || c == '\U{202F}'
    || c == '\U{205F}' || c == '\U{3000}'
  }

  /** What counts as margin at the start of a run. */
  datatype Margin = Nothing | Newlines | Whitespace

  predicate Strips(margin: Margin, c: char) {
    match margin
    case Nothing => false
    case Newlines => c == '\n'
    case Whitespace => IsWhite(c)
  }

  function TrimStart(margin: Margin, s: string): string {
    if s != "" && Strips(margin, s[0]) then TrimStart(margin, s[1..]) else s
  }

  function TrimEnd(s: string): (r: string)
    ensures |r| <= |s| && r == s[..|r|]
  {
    if s != "" && IsWhite(s[|s| - 1]) then TrimEnd(s[..|s| - 1]) else s
  }

  /** What is left begins with something that is no margin, and all before it was. */
  lemma {:induction false} TrimStartMeaning(margin: Margin, s: string)
    ensures var r := TrimStart(margin, s);
            && |r| <= |s| && r == s[|s| - |r|..]
            && (forall i :: 0 <= i < |s| - |r| ==> Strips(margin, s[i]))
            && (r != "" ==> !Strips(margin, r[0]))
  {
    if s != "" && Strips(margin, s[0]) {
      var t := s[1..];
      TrimStartMeaning(margin, t);
      assert forall i :: 1 <= i < |s| ==> s[i] == t[i - 1];
    }
  }

  lemma {:induction false} TrimEndMeaning(s: string)
    ensures var r := TrimEnd(s);
            && (forall i :: |r| <= i < |s| ==> IsWhite(s[i]))
            && (r != "" ==> !IsWhite(r[|r| - 1]))
  {
    if s != "" && IsWhite(s[|s| - 1]) {
      var t := s[..|s| - 1];
      TrimEndMeaning(t);
      assert forall i :: 0 <= i < |t| ==> s[i] == t[i];
    }
  }

  /** Leading margin is stripped until something else comes, and no further. */
  lemma {:induction false} TrimStartInTwo(margin: Margin, s: string, t: string)
    ensures TrimStart(margin, s + t)
            == if TrimStart(margin, s) == "" then TrimStart(margin, t) else TrimStart(margin, s) + t
  {
    if s == "" {
      assert s + t == t;
    } else if Strips(margin, s[0]) {
      assert (s + t)[1..] == s[1..] + t;
      TrimStartInTwo(margin, s[1..], t);
    }
  }

  /** Trailing whitespace is only ever found behind the last thing that is not. */
  lemma {:induction false} TrimEndBehind(body: string, s: string)
    requires body != "" ==> !IsWhite(body[|body| - 1])
    ensures TrimEnd(body + s) == body + TrimEnd(s)
    decreases |s|
  {
    if s == "" {
      assert body + s == body;
    } else {
      assert (body + s)[..|body + s| - 1] == body + s[..|s| - 1];
      TrimEndBehind(body, s[..|s| - 1]);
    }
  }

  // ── The batch computation ─────────────────────────────────────────────────

  /** A maximal stretch of slices on one channel, or one speech chunk. */
  datatype Run = Words(channel: Channel, text: string) | Sound(rate: nat, samples: seq<int>)

  /** A slice joins the last run when that is on the same channel. An empty slice on
      the other channel still ends a run. */
  function AddItem(runs: seq<Run>, item: Item): seq<Run> {
    match item
    case Emission(channel, text) =>
      if Continues(runs, channel)
      then runs[..|runs| - 1] + [Words(channel, runs[|runs| - 1].text + text)]
      else runs + [Words(channel, text)]
    case Speech(rate, samples) => runs + [Sound(rate, samples)]
  }

  predicate Continues(runs: seq<Run>, channel: Channel) {
    runs != [] && runs[|runs| - 1].Words? && runs[|runs| - 1].channel == channel
  }

  function Runs(items: seq<Item>): seq<Run> {
    if items == [] then [] else AddItem(Runs(items[..|items| - 1]), items[|items| - 1])
  }

  predicate HasReasoning(runs: seq<Run>) {
    exists i :: 0 <= i < |runs| && runs[i].Words? && runs[i].channel == Reasoning
  }

  /** The template's whitespace, which is not the model's: all of it before reasoning,
      the newlines before text once a reasoning scaffold has been seen. */
  function MarginOf(channel: Channel, scaffolded: bool): Margin {
    if channel == Reasoning then Whitespace else if scaffolded then Newlines else Nothing
  }

  /** A run without its leading margin. */
  function Content(run: Run, scaffolded: bool): string
    requires run.Words?
  {
    TrimStart(MarginOf(run.channel, scaffolded), run.text)
  }

  /** A reasoning run loses its trailing whitespace as well. */
  function Body(run: Run, scaffolded: bool): (body: string)
    requires run.Words?
    ensures |body| <= |Content(run, scaffolded)| && body == Content(run, scaffolded)[..|body|]
  {
    if run.channel == Reasoning then TrimEnd(Content(run, scaffolded)) else Content(run, scaffolded)
  }

  function PartOf(channel: Channel, text: string): Part {
    if channel == Text then TextPart(text) else ReasoningPart(text)
  }

  function Shown(run: Run, scaffolded: bool): Part {
    match run
    case Words(channel, _) => PartOf(channel, Body(run, scaffolded))
    case Sound(rate, samples) => SpeechPart(rate, samples)
  }

  function Trimmed(runs: seq<Run>): seq<Part> {
    if runs == [] then []
    else Trimmed(runs[..|runs| - 1]) + [Shown(runs[|runs| - 1], HasReasoning(runs[..|runs| - 1]))]
  }

  predicate IsEmpty(part: Part) {
    !part.SpeechPart? && part.text == ""
  }

  function NonEmpty(parts: seq<Part>): seq<Part> {
    if parts == [] then []
    else NonEmpty(parts[..|parts| - 1]) + (if IsEmpty(parts[|parts| - 1]) then [] else [parts[|parts| - 1]])
  }

  predicate SameSound(parts: seq<Part>, part: Part) {
    && parts != [] && parts[|parts| - 1].SpeechPart?
    && part.SpeechPart? && part.rate == parts[|parts| - 1].rate
  }

  /** Speech of equal rate right behind speech is one part. */
  function Append(parts: seq<Part>, part: Part): seq<Part> {
    if SameSound(parts, part)
    then parts[..|parts| - 1] + [SpeechPart(part.rate, parts[|parts| - 1].samples + part.samples)]
    else parts + [part]
  }

  function Merged(parts: seq<Part>): seq<Part> {
    if parts == [] then [] else Append(Merged(parts[..|parts| - 1]), parts[|parts| - 1])
  }

  /** The parts of a message: trim every run, drop the empty ones, merge speech. */
  function PartsOf(runs: seq<Run>): seq<Part> {
    Merged(NonEmpty(Trimmed(runs)))
  }

  /** One more run changes the parts by no more than what it shows. */
  lemma {:induction false} PartsOfOneMore(runs: seq<Run>, run: Run)
    ensures var shown := Shown(run, HasReasoning(runs));
            PartsOf(runs + [run]) == if IsEmpty(shown) then PartsOf(runs) else Append(PartsOf(runs), shown)
  {
    var shown := Shown(run, HasReasoning(runs));
    assert (runs + [run])[..|runs|] == runs;
    assert Trimmed(runs + [run]) == Trimmed(runs) + [shown];
    var kept := NonEmpty(Trimmed(runs));
    NonEmptyOneMore(Trimmed(runs), shown);
    if IsEmpty(shown) {
      assert kept + [] == kept;
    } else {
      assert (kept + [shown])[..|kept|] == kept;
    }
  }

  lemma {:induction false} NonEmptyOneMore(parts: seq<Part>, part: Part)
    ensures NonEmpty(parts + [part]) == NonEmpty(parts) + (if IsEmpty(part) then [] else [part])
  {
    assert (parts + [part])[..|parts|] == parts;
  }

  // ── Chunking does not matter ──────────────────────────────────────────────

  function Emissions(channel: Channel, pieces: seq<string>): seq<Item> {
    seq(|pieces|, i requires 0 <= i < |pieces| => Emission(channel, pieces[i]))
  }

  function Concat(pieces: seq<string>): string {
    if pieces == [] then "" else Concat(pieces[..|pieces| - 1]) + pieces[|pieces| - 1]
  }

  lemma {:induction false} RunsOneMore(items: seq<Item>, item: Item)
    ensures Runs(items + [item]) == AddItem(Runs(items), item)
  {
    assert (items + [item])[..|items|] == items;
  }

  lemma {:induction false} AddPieces(runs: seq<Run>, channel: Channel, s: string, t: string)
    ensures AddItem(AddItem(runs, Emission(channel, s)), Emission(channel, t)) == AddItem(runs, Emission(channel, s + t))
  {
    var once := AddItem(runs, Emission(channel, s));
    assert once[|once| - 1].Words? && once[|once| - 1].channel == channel;
    if Continues(runs, channel) {
      var text := runs[|runs| - 1].text;
      assert (text + s) + t == text + (s + t);
      assert once[..|once| - 1] == runs[..|runs| - 1];
    } else {
      assert once[..|once| - 1] == runs;
    }
  }

  lemma {:induction false} RunsOfPieces(before: seq<Item>, channel: Channel, pieces: seq<string>)
    requires pieces != []
    ensures Runs(before + Emissions(channel, pieces)) == AddItem(Runs(before), Emission(channel, Concat(pieces)))
    decreases |pieces|
  {
    var most, last := pieces[..|pieces| - 1], pieces[|pieces| - 1];
    assert before + Emissions(channel, pieces) == before + Emissions(channel, most) + [Emission(channel, last)];
    RunsOneMore(before + Emissions(channel, most), Emission(channel, last));
    if most == [] {
      assert before + Emissions(channel, most) == before;
      assert Concat(pieces) == "" + last == last;
    } else {
      RunsOfPieces(before, channel, most);
      AddPieces(Runs(before), channel, Concat(most), last);
    }
  }

  lemma {:induction false} SameRunsAfter(a: seq<Item>, b: seq<Item>, after: seq<Item>)
    requires Runs(a) == Runs(b)
    ensures Runs(a + after) == Runs(b + after)
    decreases |after|
  {
    if after == [] {
      assert a + after == a && b + after == b;
    } else {
      var most, last := after[..|after| - 1], after[|after| - 1];
      SameRunsAfter(a, b, most);
      assert a + after == (a + most) + [last] && b + after == (b + most) + [last];
      RunsOneMore(a + most, last);
      RunsOneMore(b + most, last);
    }
  }

  /** A slice cut into pieces, empty ones included, anywhere in a stream, changes
      nothing in the message. */
  lemma {:induction false} ChunkingDoesNotMatter(before: seq<Item>, channel: Channel, pieces: seq<string>, after: seq<Item>)
    requires pieces != []
    ensures PartsOf(Runs(before + Emissions(channel, pieces) + after))
            == PartsOf(Runs(before + [Emission(channel, Concat(pieces))] + after))
  {
    RunsOfPieces(before, channel, pieces);
    RunsOneMore(before, Emission(channel, Concat(pieces)));
    SameRunsAfter(before + Emissions(channel, pieces), before + [Emission(channel, Concat(pieces))], after);
  }

  // ── Grouping loses nothing ────────────────────────────────────────────────

  ghost predicate Maximal(runs: seq<Run>) {
    forall i :: 0 < i < |runs| && runs[i].Words? && runs[i - 1].Words? ==> runs[i].channel != runs[i - 1].channel
  }

  function Said(items: seq<Item>, channel: Channel): string {
    if items == [] then ""
    else Said(items[..|items| - 1], channel)
         + (if items[|items| - 1].Emission? && items[|items| - 1].channel == channel then items[|items| - 1].text else "")
  }

  function SaidInRuns(runs: seq<Run>, channel: Channel): string {
    if runs == [] then ""
    else SaidInRuns(runs[..|runs| - 1], channel)
         + (if runs[|runs| - 1].Words? && runs[|runs| - 1].channel == channel then runs[|runs| - 1].text else "")
  }

  /** Runs alternate, and on each channel they hold what was emitted on it. */
  lemma {:induction false} RunsKeepEverything(items: seq<Item>, channel: Channel)
    ensures Maximal(Runs(items)) && SaidInRuns(Runs(items), channel) == Said(items, channel)
    decreases |items|
  {
    if items != [] {
      var most, item := items[..|items| - 1], items[|items| - 1];
      RunsKeepEverything(most, channel);
      AddKeepsEverything(Runs(most), item, channel);
    }
  }

  lemma {:induction false} SaidOneMore(runs: seq<Run>, run: Run, channel: Channel)
    ensures SaidInRuns(runs + [run], channel)
            == SaidInRuns(runs, channel) + (if run.Words? && run.channel == channel then run.text else "")
  {
    assert (runs + [run])[..|runs|] == runs;
  }

  lemma {:induction false} AddKeepsEverything(runs: seq<Run>, item: Item, channel: Channel)
    requires Maximal(runs)
    ensures Maximal(AddItem(runs, item))
    ensures SaidInRuns(AddItem(runs, item), channel)
            == SaidInRuns(runs, channel) + (if item.Emission? && item.channel == channel then item.text else "")
  {
    var out := AddItem(runs, item);
    if item.Emission? && Continues(runs, item.channel) {
      var most, last := runs[..|runs| - 1], runs[|runs| - 1];
      assert forall i :: 0 <= i < |most| ==> out[i] == runs[i];
      hide Maximal, SaidInRuns;
      assert runs == most + [last];
      SaidOneMore(most, last, channel);
      SaidOneMore(most, out[|out| - 1], channel);
      Reassociate(SaidInRuns(most, channel), last.text, item.text);
    } else {
      assert forall i :: 0 <= i < |runs| ==> out[i] == runs[i];
      hide Maximal, SaidInRuns;
      SaidOneMore(runs, out[|out| - 1], channel);
    }
  }

  // ── What a message looks like ─────────────────────────────────────────────

  /** No part is empty; reasoning has no whitespace at either end; text has no leading
      newline once reasoning has been seen; speech of one rate is never split. */
  ghost predicate Tidy(parts: seq<Part>) {
    && (forall i :: 0 <= i < |parts| ==> !IsEmpty(parts[i]))
    && (forall i :: 0 <= i < |parts| && parts[i].ReasoningPart? ==> Clean(parts[i].text))
    && (forall i, j :: 0 <= i < j < |parts| && parts[i].ReasoningPart? && parts[j].TextPart? ==> NoNewline(parts[j].text))
    && (forall i :: 0 < i < |parts| && parts[i - 1].SpeechPart? && parts[i].SpeechPart? ==> parts[i - 1].rate != parts[i].rate)
  }

  predicate Clean(s: string) {
    s != "" && !IsWhite(s[0]) && !IsWhite(s[|s| - 1])
  }

  predicate NoNewline(s: string) {
    s != "" && s[0] != '\n'
  }

  lemma {:induction false} ShownIsTidy(run: Run, scaffolded: bool)
    ensures var shown := Shown(run, scaffolded);
            && (shown.ReasoningPart? && !IsEmpty(shown) ==> Clean(shown.text))
            && (shown.TextPart? && !IsEmpty(shown) && scaffolded ==> NoNewline(shown.text))
  {
    if run.Words? {
      TrimStartMeaning(MarginOf(run.channel, scaffolded), run.text);
      TrimEndMeaning(Content(run, scaffolded));
    }
  }

  ghost predicate ReasoningSeen(parts: seq<Part>, runs: seq<Run>) {
    (exists i :: 0 <= i < |parts| && parts[i].ReasoningPart?) ==> HasReasoning(runs)
  }

  lemma {:induction false} AppendIsTidy(parts: seq<Part>, part: Part)
    requires Tidy(parts) && !IsEmpty(part)
    requires part.ReasoningPart? ==> Clean(part.text)
    requires part.TextPart? && (exists i :: 0 <= i < |parts| && parts[i].ReasoningPart?) ==> NoNewline(part.text)
    ensures Tidy(Append(parts, part))
  {
    var out := Append(parts, part);
    if SameSound(parts, part) {
      assert forall i :: 0 <= i < |parts| ==> out[i] == parts[i] || (out[i].SpeechPart? && parts[i].SpeechPart? && out[i].rate == parts[i].rate);
    } else {
      assert forall i :: 0 <= i < |parts| ==> out[i] == parts[i];
    }
  }

  lemma {:induction false} PartsAreTidy(runs: seq<Run>)
    ensures Tidy(PartsOf(runs)) && ReasoningSeen(PartsOf(runs), runs)
    decreases |runs|
  {
    if runs != [] {
      var most, last := runs[..|runs| - 1], runs[|runs| - 1];
      assert runs == most + [last];
      PartsAreTidy(most);
      PartsOfOneMore(most, last);
      ShownIsTidy(last, HasReasoning(most));
      var shown := Shown(last, HasReasoning(most));
      if !IsEmpty(shown) {
        AppendIsTidy(PartsOf(most), shown);
      }
      SeenOneMore(PartsOf(most), most, last);
    }
  }

  lemma {:induction false} SeenOneMore(parts: seq<Part>, most: seq<Run>, last: Run)
    requires ReasoningSeen(parts, most)
    ensures ReasoningSeen(parts, most + [last])
    ensures ReasoningSeen(Append(parts, Shown(last, HasReasoning(most))), most + [last])
  {
    var all := most + [last];
    assert all[|most|] == last;
    if HasReasoning(most) {
      var i :| 0 <= i < |most| && most[i].Words? && most[i].channel == Reasoning;
      assert all[i] == most[i];
    }
  }
}
