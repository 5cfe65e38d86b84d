/** The marker scanner of src/generation/reply_parts.rs, which cuts a reply into visible
    text and reasoning as it arrives: where the text is split into tokens must not
    matter, although a marker can be split anywhere and one can begin another. */
module ReplyScanner {
  import opened Wrappers
  import opened BatchParts

  datatype Slice = Slice(channel: Channel, text: string)

  function AsItems(slices: seq<Slice>): seq<Item> {
    seq(|slices|, i requires 0 <= i < |slices| => Emission(slices[i].channel, slices[i].text))
  }

  /** The strings that open reasoning and those that close it. */
  datatype Markers = Markers(opening: seq<string>, closing: seq<string>)

  function For(markers: Markers, channel: Channel): seq<string> {
    if channel == Text then markers.opening else markers.closing
  }

  function Other(channel: Channel): Channel {
    if channel == Text then Reasoning else Text
  }

  // ── The decision at one position ──────────────────────────────────────────

  /** A marker is here, `length` characters of it; or the text so far might still become
      one, so wait; or the character is the model's. */
  datatype Decision = Matched(length: nat) | Wait | Plain

  ghost predicate IsMatch(s: string, patterns: seq<string>, n: nat) {
    exists k :: 0 <= k < |patterns| && Matches(s, patterns[k]) && |patterns[k]| == n
  }

  predicate Matches(s: string, p: string) {
    p != "" && p <= s
  }

  /** `n` is the length of the longest pattern that `s` begins with. */
  ghost predicate IsLongest(s: string, patterns: seq<string>, n: nat) {
    IsMatch(s, patterns, n) && forall k :: 0 <= k < |patterns| && Matches(s, patterns[k]) ==> |patterns[k]| <= n
  }

  ghost predicate NoMatch(s: string, patterns: seq<string>) {
    forall k :: 0 <= k < |patterns| ==> !Matches(s, patterns[k])
  }

  /** Some pattern goes on where `s` stops. */
  ghost predicate Unfinished(s: string, patterns: seq<string>) {
    exists k :: 0 <= k < |patterns| && s < patterns[k]
  }

  /** What the text from here on says: nothing that could still grow into a longer
      marker is decided. */
  ghost predicate Decides(s: string, patterns: seq<string>, d: Decision) {
    match d
    case Matched(n) => IsLongest(s, patterns, n) && !Unfinished(s, patterns)
    case Wait => Unfinished(s, patterns)
    case Plain => NoMatch(s, patterns) && !Unfinished(s, patterns)
  }

  lemma {:induction false} DecisionIsUnique(s: string, patterns: seq<string>, d: Decision, e: Decision)
    requires Decides(s, patterns, d) && Decides(s, patterns, e)
    ensures d == e
  {}

  /** A decision that does not wait stands, whatever follows. */
  lemma {:induction false} DecisionStands(s: string, more: string, patterns: seq<string>, d: Decision)
    requires s != "" && Decides(s, patterns, d) && d != Wait
    ensures Decides(s + more, patterns, d)
  {
    forall k | 0 <= k < |patterns|
      ensures Matches(s + more, patterns[k]) <==> Matches(s, patterns[k])
      ensures !(s + more < patterns[k])
    {
      assert !(s < patterns[k]);
      PrefixEitherWay(s, more, patterns[k]);
    }
    if d.Matched? {
      var k :| 0 <= k < |patterns| && Matches(s, patterns[k]) && |patterns[k]| == d.length;
      assert Matches(s + more, patterns[k]);
    }
  }

  lemma {:induction false} PrefixEitherWay(s: string, more: string, p: string)
    ensures p <= s + more ==> p <= s || s < p
    ensures s + more < p ==> s < p
  {
    if p <= s + more {
      if |p| > |s| {
        assert p[..|s|] == (s + more)[..|s|] == s;
      } else {
        assert p == (s + more)[..|p|] == s[..|p|];
      }
    }
    if s + more < p {
      assert p[..|s|] == (s + more)[..|s|] == s;
    }
  }

  // ── The loops of the source ───────────────────────────────────────────────

  /** The longest marker at the start of `s`. An empty marker never matches. */
  method MatchAny(s: string, patterns: seq<string>) returns (best: Option<nat>)
    ensures best.None? <==> NoMatch(s, patterns)
    ensures best.Some? ==> IsLongest(s, patterns, best.value)
  {
    best := None;
    for k := 0 to |patterns|
      invariant best.None? <==> forall j :: 0 <= j < k ==> !Matches(s, patterns[j])
      invariant best.Some? ==> forall j :: 0 <= j < k && Matches(s, patterns[j]) ==> |patterns[j]| <= best.value
      invariant best.Some? ==> exists j :: 0 <= j < k && Matches(s, patterns[j]) && |patterns[j]| == best.value
    {
      if patterns[k] != "" && patterns[k] <= s {
        assert Matches(s, patterns[k]);
        best := Some(if best.None? || best.value < |patterns[k]| then |patterns[k]| else best.value);
      }
    }
  }

  /** Whether `s` might be the beginning of a marker. */
  method CouldStartAny(s: string, patterns: seq<string>) returns (could: bool)
    requires s != ""
    ensures could <==> Unfinished(s, patterns)
  {
    for k := 0 to |patterns|
      invariant forall j :: 0 <= j < k ==> !(s < patterns[j])
    {
      if s <= patterns[k] && |patterns[k]| > |s| {
        assert s < patterns[k];
        return true;
      }
    }
    could := false;
  }

  /** Whether a marker longer than the longest match is still possible. */
  method LongerPatternCouldExtend(s: string, matched: nat, patterns: seq<string>) returns (could: bool)
    requires IsLongest(s, patterns, matched)
    ensures could <==> Unfinished(s, patterns)
  {
    LongestFits(s, patterns, matched);
    for k := 0 to |patterns|
      invariant forall j :: 0 <= j < k ==> !(s < patterns[j])
    {
      if |patterns[k]| > matched {
        if patterns[k][..matched] == s[..matched] && s <= patterns[k] {
          var p := patterns[k];
          assert s == p ==> Matches(s, p);
          assert s < p;
          return true;
        }
        SamePrefix(s, patterns[k], matched);
      }
    }
    could := false;
  }

  lemma {:induction false} LongestFits(s: string, patterns: seq<string>, n: nat)
    requires IsLongest(s, patterns, n)
    ensures 0 < n <= |s|
  {}

  lemma {:induction false} SamePrefix(s: string, p: string, n: nat)
    requires n <= |s| && n <= |p|
    ensures s <= p ==> p[..n] == s[..n]
  {
    if s <= p {
      assert p[..n] == p[..|s|][..n];
    }
  }

  method Decide(s: string, patterns: seq<string>) returns (d: Decision)
    requires s != ""
    ensures Decides(s, patterns, d)
    ensures d.Matched? ==> 0 < d.length <= |s|
  {
    var matched := MatchAny(s, patterns);
    if matched.Some? {
      LongestFits(s, patterns, matched.value);
      var longer := LongerPatternCouldExtend(s, matched.value, patterns);
      return if longer then Wait else Matched(matched.value);
    }
    var could := CouldStartAny(s, patterns);
    d := if could then Wait else Plain;
  }

  lemma {:induction false} SomeDecision(s: string, patterns: seq<string>)
    requires s != ""
    ensures exists d: Decision :: Decides(s, patterns, d)
    decreases |patterns|
  {
    if Unfinished(s, patterns) {
      assert Decides(s, patterns, Wait);
    } else if NoMatch(s, patterns) {
      assert Decides(s, patterns, Plain);
    } else {
      var n := LongestOf(s, patterns);
      assert Decides(s, patterns, Matched(n));
    }
  }

  lemma {:induction false} LongestOf(s: string, patterns: seq<string>) returns (n: nat)
    requires !NoMatch(s, patterns)
    ensures IsLongest(s, patterns, n)
    decreases |patterns|
  {
    var most, last := patterns[..|patterns| - 1], patterns[|patterns| - 1];
    if NoMatch(s, most) {
      n := |last|;
      assert Matches(s, patterns[|patterns| - 1]);
    } else {
      var m := LongestOf(s, most);
      n := if Matches(s, last) && |last| > m then |last| else m;
      var k :| 0 <= k < |most| && Matches(s, most[k]) && |most[k]| == m;
      assert patterns[k] == most[k];
      assert n == m || Matches(s, patterns[|patterns| - 1]);
    }
    assert forall j :: 0 <= j < |most| ==> patterns[j] == most[j];
  }

  ghost function DecisionAt(s: string, patterns: seq<string>): (d: Decision)
    requires s != ""
    ensures Decides(s, patterns, d)
    ensures d.Matched? ==> 0 < d.length <= |s|
  {
    SomeDecision(s, patterns);
    var d: Decision :| Decides(s, patterns, d);
    if d.Matched? then LongestFits(s, patterns, d.length); d else d
  }

  // ── Scanning a text at once ───────────────────────────────────────────────

  /** The characters let through, each with its channel; where the scanner stands; and
      what it still holds. */
  datatype Scanned = Scanned(out: seq<Item>, channel: Channel, pending: string)

  ghost function Scan(markers: Markers, channel: Channel, text: string): Scanned
    decreases |text|
  {
    if text == "" then Scanned([], channel, "")
    else match DecisionAt(text, For(markers, channel))
      case Wait => Scanned([], channel, text)
      case Matched(n) => Scan(markers, Other(channel), text[n..])
      case Plain => Behind([Emission(channel, text[..1])], Scan(markers, channel, text[1..]))
  }

  ghost function Behind(before: seq<Item>, s: Scanned): Scanned {
    Scanned(before + s.out, s.channel, s.pending)
  }

  // ── What the markers mean ─────────────────────────────────────────────────

  lemma {:induction false} DecidedAs(s: string, patterns: seq<string>, d: Decision)
    requires s != "" && Decides(s, patterns, d)
    ensures DecisionAt(s, patterns) == d
  {
    DecisionIsUnique(s, patterns, d, DecisionAt(s, patterns));
  }

  /** An opening marker leads from the visible text into reasoning. */
  lemma {:induction false} OpeningLeadsIn(markers: Markers, marker: string, rest: string)
    requires marker != "" && Decides(marker + rest, markers.opening, Matched(|marker|))
    ensures Scan(markers, Text, marker + rest) == Scan(markers, Reasoning, rest)
  {
    DecidedAs(marker + rest, markers.opening, Matched(|marker|));
    assert (marker + rest)[|marker|..] == rest;
  }

  /** And a closing one back out. */
  lemma {:induction false} ClosingLeadsOut(markers: Markers, marker: string, rest: string)
    requires marker != "" && Decides(marker + rest, markers.closing, Matched(|marker|))
    ensures Scan(markers, Reasoning, marker + rest) == Scan(markers, Text, rest)
  {
    DecidedAs(marker + rest, markers.closing, Matched(|marker|));
    assert (marker + rest)[|marker|..] == rest;
  }

  predicate BeginsWith(pattern: string, c: char) {
    pattern != "" && pattern[0] == c
  }

  /** No marker begins with a letter of `s`. */
  predicate Quiet(s: string, patterns: seq<string>) {
    forall k, i :: 0 <= k < |patterns| && 0 <= i < |s| ==> !BeginsWith(patterns[k], s[i])
  }

  /** Text in which no marker begins is let through on its channel as it is. */
  lemma {:induction false} QuietPasses(markers: Markers, channel: Channel, s: string, rest: string)
    requires Quiet(s, For(markers, channel))
    ensures Scan(markers, channel, s + rest) == Behind(Letters(channel, s), Scan(markers, channel, rest))
    decreases |s|
  {
    if s == "" {
      assert s + rest == rest;
      NothingBehind(Scan(markers, channel, rest));
    } else {
      var patterns := For(markers, channel);
      PlainHere(s, rest, patterns);
      DecidedAs(s + rest, patterns, Plain);
      assert (s + rest)[1..] == s[1..] + rest && (s + rest)[..1] == s[..1];
      QuietPasses(markers, channel, s[1..], rest);
      LettersFirst(channel, s);
      BehindTwice([Emission(channel, s[..1])], Letters(channel, s[1..]), Scan(markers, channel, rest));
    }
  }

  lemma {:induction false} PlainHere(s: string, rest: string, patterns: seq<string>)
    requires s != "" && Quiet(s, patterns)
    ensures Decides(s + rest, patterns, Plain)
  {
    forall k | 0 <= k < |patterns|
      ensures !Matches(s + rest, patterns[k]) && !(s + rest < patterns[k])
    {
      assert !BeginsWith(patterns[k], s[0]) && (s + rest)[0] == s[0];
    }
  }

  lemma {:induction false} LettersFirst(channel: Channel, s: string)
    requires s != ""
    ensures Letters(channel, s) == [Emission(channel, s[..1])] + Letters(channel, s[1..])
  {
    assert s[0..1] == s[..1];
    forall i | 0 <= i < |s| - 1
      ensures Letters(channel, s[1..])[i] == Letters(channel, s)[i + 1]
    {
      assert s[1..][i..i + 1] == s[i + 1..i + 2];
    }
  }

  /** A reply that thinks in between: what stands before the opening marker and behind the
      closing one is visible, what stands between them is reasoning, and the markers are
      neither. */
  lemma {:induction false} ThinkingIsCutOut(markers: Markers, before: string, opening: string, thought: string, closing: string, answer: string)
    requires opening != "" && closing != ""
    requires Quiet(before, markers.opening) && Quiet(thought, markers.closing) && Quiet(answer, markers.opening)
    requires Decides(opening + (thought + (closing + answer)), markers.opening, Matched(|opening|))
    requires Decides(closing + answer, markers.closing, Matched(|closing|))
    ensures Flushed(Scan(markers, Text, before + (opening + (thought + (closing + answer)))))
            == Letters(Text, before) + (Letters(Reasoning, thought) + Letters(Text, answer))
  {
    hide Letters, Decides;
    QuietPasses(markers, Text, before, opening + (thought + (closing + answer)));
    OpeningLeadsIn(markers, opening, thought + (closing + answer));
    QuietPasses(markers, Reasoning, thought, closing + answer);
    ClosingLeadsOut(markers, closing, answer);
    assert answer + "" == answer;
    QuietPasses(markers, Text, answer, "");
    ScanNothing(markers);
    NoLetters(Text, []);
    hide Scan;
    var a, b, c := Letters(Text, before), Letters(Reasoning, thought), Letters(Text, answer);
    BehindTwice(a, b, Behind(c, Scanned([], Text, "")));
    assert (a + b) + (c + []) == a + (b + c);
  }

  lemma {:induction false} ScanNothing(markers: Markers)
    ensures Scan(markers, Text, "") == Scanned([], Text, "")
  {}

  /** Scanning goes on, behind what was held, exactly where it stopped. */
  lemma {:induction false} ScanInTwo(markers: Markers, channel: Channel, text: string, more: string)
    ensures var first := Scan(markers, channel, text);
            Scan(markers, channel, text + more) == Behind(first.out, Scan(markers, first.channel, first.pending + more))
    decreases |text|
  {
    if text == "" {
      assert text + more == more && "" + more == more;
      NothingBehind(Scan(markers, channel, more));
    } else {
      var patterns := For(markers, channel);
      var d := DecisionAt(text, patterns);
      match d {
        case Wait => NothingBehind(Scan(markers, channel, text + more));
        case Matched(n) =>
          SameDecision(text, more, patterns);
          assert (text + more)[n..] == text[n..] + more;
          ScanInTwo(markers, Other(channel), text[n..], more);
        case Plain =>
          SameDecision(text, more, patterns);
          assert (text + more)[1..] == text[1..] + more && (text + more)[..1] == text[..1];
          ScanInTwo(markers, channel, text[1..], more);
          var first := Scan(markers, channel, text[1..]);
          BehindTwice([Emission(channel, text[..1])], first.out, Scan(markers, first.channel, first.pending + more));
      }
    }
  }

  lemma {:induction false} SameDecision(text: string, more: string, patterns: seq<string>)
    requires text != "" && DecisionAt(text, patterns) != Wait
    ensures DecisionAt(text + more, patterns) == DecisionAt(text, patterns)
  {
    DecisionStands(text, more, patterns, DecisionAt(text, patterns));
    DecisionIsUnique(text + more, patterns, DecisionAt(text, patterns), DecisionAt(text + more, patterns));
  }

  lemma {:induction false} NothingBehind(s: Scanned)
    ensures Behind([], s) == s
  {
    assert [] + s.out == s.out;
  }

  lemma {:induction false} BehindTwice(a: seq<Item>, b: seq<Item>, s: Scanned)
    ensures Behind(a, Behind(b, s)) == Behind(a + b, s)
  {
    assert a + (b + s.out) == (a + b) + s.out;
  }

  /** What is held at the end is let through after all. */
  ghost function Flushed(s: Scanned): seq<Item> {
    s.out + Letters(s.channel, s.pending)
  }

  /** A slice, letter by letter. */
  function Letters(channel: Channel, text: string): seq<Item> {
    seq(|text|, i requires 0 <= i < |text| => Emission(channel, text[i..i + 1]))
  }

  // ── The scanner ───────────────────────────────────────────────────────────

  /** Slices, letter by letter: what a list of them says, however it is cut. */
  function Spelled(slices: seq<Slice>): seq<Item> {
    if slices == [] then []
    else Spelled(slices[..|slices| - 1]) + Letters(slices[|slices| - 1].channel, slices[|slices| - 1].text)
  }

  lemma {:induction false} SpelledOneMore(slices: seq<Slice>, slice: Slice)
    ensures Spelled(slices + [slice]) == Spelled(slices) + Letters(slice.channel, slice.text)
  {
    assert (slices + [slice])[..|slices|] == slices;
  }

  ghost predicate NonEmptySlices(slices: seq<Slice>) {
    forall i :: 0 <= i < |slices| ==> slices[i].text != ""
  }

  /** What a push lets through, in slices; where the scanner stands then; and what it
      holds. */
  datatype Split = Split(slices: seq<Slice>, channel: Channel, pending: string)

  /** A run that ends is one slice, unless it is empty. */
  function Closed(channel: Channel, run: string): seq<Slice> {
    if run == "" then [] else [Slice(channel, run)]
  }

  ghost function Ahead(slices: seq<Slice>, s: Split): Split {
    s.(slices := slices + s.slices)
  }

  /** `text` cut into slices, behind a run that is not closed yet: a slice ends at a marker,
      where the scanner waits, and at the end. */
  ghost function SplitOf(markers: Markers, channel: Channel, run: string, text: string): Split
    decreases |text|
  {
    if text == "" then Split(Closed(channel, run), channel, "")
    else match DecisionAt(text, For(markers, channel))
      case Wait => Split(Closed(channel, run), channel, text)
      case Matched(n) => Ahead(Closed(channel, run), SplitOf(markers, Other(channel), "", text[n..]))
      case Plain => SplitOf(markers, channel, run + text[..1], text[1..])
  }

  lemma {:induction false} SplitStep(markers: Markers, channel: Channel, run: string, text: string)
    requires text != ""
    ensures var d := DecisionAt(text, For(markers, channel));
            SplitOf(markers, channel, run, text)
            == match d
               case Wait => Split(Closed(channel, run), channel, text)
               case Matched(n) => Ahead(Closed(channel, run), SplitOf(markers, Other(channel), "", text[n..]))
               case Plain => SplitOf(markers, channel, run + text[..1], text[1..])
  {}

  lemma {:induction false} SplitEnd(markers: Markers, channel: Channel, run: string)
    ensures SplitOf(markers, channel, run, "") == Split(Closed(channel, run), channel, "")
  {}

  /** The slices say, letter by letter, what the scan lets through. */
  lemma {:induction false} SplitSpells(markers: Markers, channel: Channel, run: string, text: string)
    ensures var s, r := SplitOf(markers, channel, run, text), Scan(markers, channel, text);
            && Spelled(s.slices) == Letters(channel, run) + r.out && NonEmptySlices(s.slices)
            && s.channel == r.channel && s.pending == r.pending
    decreases |text|
  {
    hide Decides, IsLongest, Spelled, Letters, NonEmptySlices, Closed;
    ClosedSpells(channel, run);
    assert Letters(channel, run) + [] == Letters(channel, run);
    if text != "" {
      match DecisionAt(text, For(markers, channel)) {
        case Wait =>
        case Matched(n) =>
          SplitSpells(markers, Other(channel), "", text[n..]);
          var rest := SplitOf(markers, Other(channel), "", text[n..]).slices;
          SpelledOfTwo(Closed(channel, run), rest);
          NonEmptyTwo(Closed(channel, run), rest);
          NoLetters(Other(channel), Scan(markers, Other(channel), text[n..]).out);
        case Plain =>
          SplitSpells(markers, channel, run + text[..1], text[1..]);
          OneMoreLetter(channel, run, text[..1]);
          Reassociate(Letters(channel, run), [Emission(channel, text[..1])], Scan(markers, channel, text[1..]).out);
      }
    }
  }

  lemma {:induction false} NonEmptyTwo(a: seq<Slice>, b: seq<Slice>)
    requires NonEmptySlices(a) && NonEmptySlices(b)
    ensures NonEmptySlices(a + b)
  {}

  lemma {:induction false} NoLetters(channel: Channel, items: seq<Item>)
    ensures Letters(channel, "") + items == items
  {}

  lemma {:induction false} ClosedSpells(channel: Channel, run: string)
    ensures Spelled(Closed(channel, run)) == Letters(channel, run) && NonEmptySlices(Closed(channel, run))
  {
    if run != "" {
      SpelledOneMore([], Slice(channel, run));
      assert [] + [Slice(channel, run)] == Closed(channel, run);
      assert [] + Letters(channel, run) == Letters(channel, run);
    }
  }

  class ReplyStateMachine {
    const markers: Markers
    var channel: Channel
    var pending: string

    constructor (markers: Markers)
      ensures this.markers == markers && channel == Text && pending == ""
    {
      this.markers, channel, pending := markers, Text, "";
    }

    /** Cut one more token of the reply. Consecutive characters of a channel come as one
        slice; a marker, or what may become one, ends a slice and is kept out of it. */
    method PushEmit(chunk: string) returns (slices: seq<Slice>)
      modifies this
      ensures Split(slices, channel, pending) == SplitOf(markers, old(channel), "", old(pending) + chunk)
      ensures Scanned(Spelled(slices), channel, pending) == Scan(markers, old(channel), old(pending) + chunk)
      ensures NonEmptySlices(slices)
    {
      hide Scan, SplitOf, Decides, IsLongest, Closed, Spelled, NonEmptySlices;
      var buf := pending + chunk;
      pending := "";
      var i: nat, start: nat := 0, 0;
      slices := [];
      ghost var whole := SplitOf(markers, channel, "", buf);
      SplitSpells(markers, channel, "", buf);
      NoLetters(channel, Scan(markers, channel, buf).out);
      assert buf[0..] == buf && buf[0..0] == "" && [] + whole.slices == whole.slices;
      while i < |buf|
        invariant start <= i <= |buf| && pending == ""
        invariant Ahead(slices, SplitOf(markers, channel, buf[start..i], buf[i..])) == whole
        decreases |buf| - i
      {
        var d := Decide(buf[i..], For(markers, channel));
        DecisionIsUnique(buf[i..], For(markers, channel), d, DecisionAt(buf[i..], For(markers, channel)));
        SplitStep(markers, channel, buf[start..i], buf[i..]);
        if d == Plain {
          assert buf[i..][1..] == buf[i + 1..];
          assert buf[start..i] + buf[i..][..1] == buf[start..i + 1];
          i := i + 1;
        } else {
          ghost var before := slices;
          slices := EndRun(slices, buf, start, i);
          if d == Wait {
            pending := buf[i..];
            return;
          }
          assert buf[i..][d.length..] == buf[i + d.length..];
          AheadTwice(before, Closed(channel, buf[start..i]), SplitOf(markers, Other(channel), "", buf[i + d.length..]));
          i := i + d.length;
          start := i;
          channel := Other(channel);
          assert buf[start..i] == "";
        }
      }
      slices := EndRun(slices, buf, start, i);
      assert buf[i..] == "";
      SplitEnd(markers, channel, buf[start..i]);
    }

    /** Flush what came before a marker, if anything did. */
    method EndRun(slices: seq<Slice>, buf: string, start: nat, i: nat) returns (out: seq<Slice>)
      requires start <= i <= |buf|
      ensures out == slices + Closed(channel, buf[start..i])
    {
      out := slices;
      if start < i {
        out := slices + [Slice(channel, buf[start..i])];
      }
    }

    /** Drain what was held back. */
    method FlushPending() returns (slices: seq<Slice>)
      modifies `pending
      ensures slices == Closed(channel, old(pending)) && pending == ""
    {
      slices := [];
      if pending != "" {
        slices := [Slice(channel, pending)];
        pending := "";
      }
    }
  }

  lemma {:induction false} AheadTwice(a: seq<Slice>, b: seq<Slice>, s: Split)
    ensures Ahead(a, Ahead(b, s)) == Ahead(a + b, s)
  {
    assert a + (b + s.slices) == (a + b) + s.slices;
  }

  lemma {:induction false} OneMoreLetter(channel: Channel, s: string, letter: string)
    requires |letter| == 1
    ensures Letters(channel, s + letter) == Letters(channel, s) + [Emission(channel, letter)]
  {
    forall i | 0 <= i < |s|
      ensures Letters(channel, s + letter)[i] == Letters(channel, s)[i]
    {
      assert (s + letter)[i..i + 1] == s[i..i + 1];
    }
    assert (s + letter)[|s|..|s| + 1] == letter;
  }

  // ── Tokens do not matter ──────────────────────────────────────────────────

  lemma {:induction false} PiecesOfText(channel: Channel, text: string)
    ensures var pieces := seq(|text|, i requires 0 <= i < |text| => text[i..i + 1]);
            Emissions(channel, pieces) == Letters(channel, text) && BatchParts.Concat(pieces) == text
    decreases |text|
  {
    var pieces := seq(|text|, i requires 0 <= i < |text| => text[i..i + 1]);
    if text != "" {
      var most := text[..|text| - 1];
      PiecesOfText(channel, most);
      forall i | 0 <= i < |most|
        ensures pieces[i] == most[i..i + 1]
      {}
      assert pieces[..|pieces| - 1] == seq(|most|, i requires 0 <= i < |most| => most[i..i + 1]);
      assert text == most + text[|most|..|most| + 1];
    }
  }

  /** A slice and its letters make the same runs. */
  lemma {:induction false} LettersMakeTheRun(before: seq<Item>, channel: Channel, text: string)
    requires text != ""
    ensures Runs(before + Letters(channel, text)) == Runs(before + [Emission(channel, text)])
  {
    PiecesOfText(channel, text);
    var pieces := seq(|text|, i requires 0 <= i < |text| => text[i..i + 1]);
    RunsOfPieces(before, channel, pieces);
    RunsOneMore(before, Emission(channel, text));
  }

  /** The runs of a reply depend on its letters only, not on its slices, behind anything
      that made the same runs. */
  lemma {:induction false} RunsOfSlices(before: seq<Item>, letters: seq<Item>, slices: seq<Slice>)
    requires Runs(before) == Runs(letters) && NonEmptySlices(slices)
    ensures Runs(before + AsItems(slices)) == Runs(letters + Spelled(slices))
    decreases |slices|
  {
    hide Runs, Letters;
    if slices == [] {
      assert before + AsItems(slices) == before && letters + Spelled(slices) == letters;
    } else {
      hide Spelled;
      var most, last := slices[..|slices| - 1], slices[|slices| - 1];
      var item := Emission(last.channel, last.text);
      RunsOfSlices(before, letters, most);
      assert AsItems(slices) == AsItems(most) + [item] && slices == most + [last];
      SpelledOneMore(most, last);
      Reassociate(before, AsItems(most), [item]);
      SameRunsAfter(before + AsItems(most), letters + Spelled(most), [item]);
      LettersMakeTheRun(letters + Spelled(most), last.channel, last.text);
      Reassociate(letters, Spelled(most), Letters(last.channel, last.text));
    }
  }

  lemma {:induction false} SpelledOfTwo(a: seq<Slice>, b: seq<Slice>)
    ensures Spelled(a + b) == Spelled(a) + Spelled(b)
    decreases |b|
  {
    if b == [] {
      assert a + b == a;
      assert Spelled(a) + [] == Spelled(a);
    } else {
      hide Spelled, Letters;
      var most, last := b[..|b| - 1], b[|b| - 1];
      SpelledOfTwo(a, most);
      assert a + b == (a + most) + [last] && b == most + [last];
      SpelledOneMore(a + most, last);
      SpelledOneMore(most, last);
      Reassociate(Spelled(a), Spelled(most), Letters(last.channel, last.text));
    }
  }
}
