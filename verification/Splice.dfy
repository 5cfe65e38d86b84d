/** The README splice of benches/bench_table.rs: the text between two markers is
    replaced, or a section holding them is inserted. */
module Splice {
  import opened Wrappers

  const BEGIN := "<!-- bench:begin -->"
  const END := "<!-- bench:end -->"
  const ANCHOR := "\n## Backends\n"
  /** The heading and the prose of an inserted section, phrase by phrase. */
  function Phrase(i: nat): (p: string)
    ensures '<' !in p
    ensures i == 0 ==> |p| > 0 && p[0] == '\n'
  {
    match i
    case 0 => "\n## Benchmarks\n\n"
    case 1 => "gen2 against "
    case 2 => "`llama-bench` built "
    case 3 => "from the same "
    case 4 => "llama.cpp commit "
    case 5 => "the crate links, "
    case 6 => "on the same file; "
    case 7 => "the method, "
    case 8 => "the result schema "
    case 9 => "and how to add a "
    case 10 => "machine are in "
    case 11 => "[benches/results/"
    case 12 => "README.md]("
    case 13 => "benches/results/"
    case 14 => "README.md).\n\n"
    case _ => ""
  }

  function Prose(i: nat): (p: string)
    ensures '<' !in p
    ensures i == 0 ==> |p| > 0 && p[0] == '\n'
    decreases 15 - i
  {
    if i >= 15 then "" else Phrase(i) + Prose(i + 1)
  }

  datatype Error = EndBeforeBegin | OneMarkerOnly | NoAnchor

  // ── Finding ───────────────────────────────────────────────────────────────

  /** `needle` occurs in `s` at position `i`. */
  predicate OccursAt(s: string, needle: string, i: int) {
    0 <= i <= |s| - |needle| && s[i..i + |needle|] == needle
  }

  ghost predicate Contains(s: string, needle: string) {
    exists i :: OccursAt(s, needle, i)
  }

  /** The first occurrence at or after `from`. */
  function FindFrom(s: string, needle: string, from: nat): (r: Option<nat>)
    requires from <= |s|
    ensures r.Some? ==> from <= r.value && OccursAt(s, needle, r.value)
    ensures r.Some? ==> forall i :: from <= i < r.value ==> !OccursAt(s, needle, i)
    ensures r.None? ==> forall i :: from <= i ==> !OccursAt(s, needle, i)
    decreases |s| - from
  {
    if OccursAt(s, needle, from) then Some(from)
    else if from == |s| then None
    else FindFrom(s, needle, from + 1)
  }

  function Find(s: string, needle: string): (r: Option<nat>)
    ensures r.Some? ==> OccursAt(s, needle, r.value)
    ensures r.Some? ==> forall i :: 0 <= i < r.value ==> !OccursAt(s, needle, i)
    ensures r.None? <==> !Contains(s, needle)
  {
    FindFrom(s, needle, 0)
  }

  // ── The splice ────────────────────────────────────────────────────────────

  function Block(table: string): string {
    BEGIN + "\n" + table + END
  }

  /** `splice`, for a section that opens with `prose`. */
  function SpliceWith(readme: string, table: string, prose: string): Result<string, Error> {
    match (Find(readme, BEGIN), Find(readme, END))
    case (Some(b), Some(e)) =>
      if e < b then Err(EndBeforeBegin)
      else Ok(readme[..b] + Block(table) + readme[e + |END|..])
    case (None, None) =>
      (match Find(readme, ANCHOR)
       case None => Err(NoAnchor)
       case Some(at) => Ok(readme[..at] + (prose + Block(table) + "\n") + readme[at..]))
    case _ => Err(OneMarkerOnly)
  }

  function Splice(readme: string, table: string): Result<string, Error> {
    SpliceWith(readme, table, Prose(0))
  }

  /** An end marker stands at `e`, before every begin marker. */
  ghost predicate EndComesFirst(readme: string, e: int) {
    OccursAt(readme, END, e) && forall b :: OccursAt(readme, BEGIN, b) ==> e < b
  }

  /** A splice is refused exactly when one marker stands without the other, when the
      first end stands before the first begin, or when there is neither a marker nor
      the section to insert before. */
  lemma {:induction false} RefusedExactly(readme: string, table: string, prose: string)
    ensures var r := SpliceWith(readme, table, prose);
            && (r == Err(OneMarkerOnly) <==> Contains(readme, BEGIN) != Contains(readme, END))
            && (r == Err(EndBeforeBegin) <==>
                  Contains(readme, BEGIN) && exists e :: EndComesFirst(readme, e))
            && (r == Err(NoAnchor) <==>
                  !Contains(readme, BEGIN) && !Contains(readme, END) && !Contains(readme, ANCHOR))
  {
    hide Block;
    var b, e := Find(readme, BEGIN), Find(readme, END);
    forall i
      ensures OccursAt(readme, END, i) ==> e.Some? && e.value <= i
      ensures OccursAt(readme, BEGIN, i) ==> b.Some? && b.value <= i
    {
      if OccursAt(readme, END, i) {
        OccursIsIndex(readme, END, i);
      }
      if OccursAt(readme, BEGIN, i) {
        OccursIsIndex(readme, BEGIN, i);
      }
    }
    if b.Some? && e.Some? {
      assert e.value < b.value ==> EndComesFirst(readme, e.value);
      forall i | EndComesFirst(readme, i)
        ensures e.value <= i < b.value
      {
        assert OccursAt(readme, BEGIN, b.value);
      }
    }
  }

  lemma {:induction false} OccursIsIndex(s: string, needle: string, i: int)
    requires OccursAt(s, needle, i)
    ensures 0 <= i
  {}

  // ── Where markers can occur ───────────────────────────────────────────────

  predicate IsMarker(m: string) {
    m == BEGIN || m == END
  }

  /** Both markers begin with `<`, and have no other `<` and no line break. */
  lemma {:induction false} MarkerShape(m: string)
    requires IsMarker(m)
    ensures |m| > 0 && m[0] == '<'
    ensures forall k :: 0 < k < |m| ==> m[k] != '<' && m[k] != '\n'
  {}

  lemma {:induction false} Differs(s: string, m: string, i: int, k: nat)
    requires 0 <= i && k < |m| && (i + k < |s| ==> s[i + k] != m[k])
    ensures !OccursAt(s, m, i)
  {
    if 0 <= i <= |s| - |m| {
      assert s[i..i + |m|][k] == s[i + k];
    }
  }

  /** Occurrences within the left or the right part of a text are its own. */
  lemma {:induction false} OccursLeft(a: string, b: string, m: string, i: int)
    requires 0 <= i && i + |m| <= |a|
    ensures OccursAt(a + b, m, i) == OccursAt(a, m, i)
  {
    assert (a + b)[i..i + |m|] == a[i..i + |m|];
  }

  lemma {:induction false} OccursRight(a: string, b: string, m: string, i: int)
    requires |a| <= i
    ensures OccursAt(a + b, m, i) == OccursAt(b, m, i - |a|)
  {
    if i + |m| <= |a + b| {
      assert (a + b)[i..i + |m|] == b[i - |a|..i - |a| + |m|];
    }
  }

  /** A seam no marker straddles: what follows begins with a character that a
      marker has only in front, or not at all. */
  predicate SafeSeam(b: string) {
    b != [] && (b[0] == '<' || b[0] == '\n')
  }

  lemma {:induction false} NoStraddle(a: string, b: string, m: string, i: int)
    requires IsMarker(m) && SafeSeam(b) && 0 <= i < |a| < i + |m|
    ensures !OccursAt(a + b, m, i)
  {
    MarkerShape(m);
    Differs(a + b, m, i, |a| - i);
  }

  /** Before a safe seam a text has no more markers than its left part. */
  lemma {:induction false} NoneBeforeSeam(a: string, b: string, m: string)
    requires IsMarker(m) && SafeSeam(b) && !Contains(a, m)
    ensures forall i :: 0 <= i < |a| ==> !OccursAt(a + b, m, i)
  {
    forall i | 0 <= i < |a| ensures !OccursAt(a + b, m, i) {
      if i + |m| <= |a| {
        OccursLeft(a, b, m, i);
      } else {
        NoStraddle(a, b, m, i);
      }
    }
  }

  /** The first marker of a text that has one right after a seam. */
  lemma {:induction false} FirstAtSeam(a: string, b: string, m: string)
    requires IsMarker(m) && !Contains(a, m) && OccursAt(b, m, 0)
    ensures Find(a + b, m) == Some(|a|)
  {
    MarkerShape(m);
    assert b[0..|m|][0] == b[0];
    NoneBeforeSeam(a, b, m);
    OccursRight(a, b, m, |a|);
  }

  lemma {:induction false} NoMarkerAcross(a: string, b: string, m: string)
    requires IsMarker(m) && SafeSeam(b) && !Contains(a, m) && !Contains(b, m)
    ensures !Contains(a + b, m)
  {
    NoneBeforeSeam(a, b, m);
    forall i | |a| <= i ensures !OccursAt(a + b, m, i) {
      OccursRight(a, b, m, i);
    }
  }

  lemma {:induction false} BeginHasNoEnd()
    ensures !Contains(BEGIN, END)
  {
    forall i ensures !OccursAt(BEGIN, END, i) {
      if i == 0 {
        Differs(BEGIN, END, 0, 11);
      } else if 0 < i {
        MarkerShape(BEGIN);
        Differs(BEGIN, END, i, 0);
      }
    }
  }

  /** A text without `<` has no marker. */
  lemma {:induction false} NoAngleNoMarker(s: string, m: string)
    requires IsMarker(m) && '<' !in s
    ensures !Contains(s, m)
  {
    MarkerShape(m);
    forall i ensures !OccursAt(s, m, i) {
      if 0 <= i {
        Differs(s, m, i, 0);
      }
    }
  }

  /** Nothing before the end marker of a block is an end marker, when the table has
      none: not in what precedes the block, not across a seam, not inside it. */
  lemma {:induction false} NoEndBefore(pre: string, table: string)
    requires !Contains(pre, END) && !Contains(table, END)
    ensures !Contains(pre + BEGIN + "\n" + table, END)
  {
    BeginHasNoEnd();
    NoMarkerAcross(pre, BEGIN, END);
    var head := "\n" + table;
    forall i ensures !OccursAt(head, END, i) {
      if i == 0 {
        Differs(head, END, 0, 0);
      } else if 0 < i {
        OccursRight("\n", table, END, i);
      }
    }
    NoMarkerAcross(pre + BEGIN, head, END);
    assert pre + BEGIN + head == pre + BEGIN + "\n" + table;
  }

  // ── What a splice leaves ──────────────────────────────────────────────────

  /** `s` is `pre`, a block holding `table`, and `post`, with the first markers of
      `s` being those of the block. */
  ghost predicate Holds(s: string, pre: string, table: string, post: string) {
    && s == pre + Block(table) + post
    && !Contains(pre, BEGIN) && !Contains(pre, END)
  }

  /** Two ways to read a text that holds a block. */
  lemma {:induction false} BlockSeams(pre: string, table: string, post: string)
    ensures pre + Block(table) + post == pre + (BEGIN + ("\n" + table + END + post))
    ensures pre + Block(table) + post == (pre + BEGIN + "\n" + table) + (END + post)
  {}

  /** The first markers of a text that holds a block are the block's own. */
  lemma {:induction false} FirstMarkers(pre: string, table: string, post: string)
    requires !Contains(pre, BEGIN) && !Contains(pre, END) && !Contains(table, END)
    ensures var s := pre + Block(table) + post;
            Find(s, BEGIN) == Some(|pre|) && Find(s, END) == Some(|pre| + |BEGIN| + 1 + |table|)
  {
    hide Find, Contains, OccursAt, Block;
    BlockSeams(pre, table, post);
    MarkerFirst(pre, BEGIN, "\n" + table + END + post);
    NoEndBefore(pre, table);
    MarkerFirst(pre + BEGIN + "\n" + table, END, post);
  }

  lemma {:induction false} MarkerFirst(before: string, m: string, after: string)
    requires IsMarker(m) && !Contains(before, m)
    ensures Find(before + (m + after), m) == Some(|before|)
  {
    hide Find, Contains;
    assert (m + after)[0..|m|] == m;
    FirstAtSeam(before, m + after, m);
  }

  /** Splicing a text that holds a block replaces the block's table and nothing
      else, whatever follows. */
  lemma {:induction false} SpliceReplaces(s: string, pre: string, old_: string, post: string, table: string, prose: string)
    requires Holds(s, pre, old_, post) && !Contains(old_, END)
    ensures SpliceWith(s, table, prose) == Ok(pre + Block(table) + post)
  {
    FirstMarkers(pre, old_, post);
    assert s[..|pre|] == pre;
    assert s[|pre| + |Block(old_)|..] == post;
  }

  /** The markers cannot overlap. */
  lemma {:induction false} EndAfterBegin(s: string, b: int, e: int)
    requires OccursAt(s, BEGIN, b) && OccursAt(s, END, e) && b <= e
    ensures b + |BEGIN| <= e
  {
    MarkerShape(BEGIN);
    var k := e - b;
    if 0 < k < |BEGIN| {
      assert s[b..b + |BEGIN|][k] == s[e];
      Differs(s, END, e, 0);
    } else if k == 0 {
      assert s[b..b + |BEGIN|][11] == s[e + 11];
      Differs(s, END, e, 11);
    }
  }

  /** Before its first occurrence a marker does not occur. */
  lemma {:induction false} PrefixHasNone(s: string, n: nat, m: string)
    requires n <= |s| && IsMarker(m)
    requires forall i :: 0 <= i < n ==> !OccursAt(s, m, i)
    ensures !Contains(s[..n], m)
  {
    MarkerShape(m);
    forall i ensures !OccursAt(s[..n], m, i) {
      if 0 <= i && i + |m| <= n {
        OccursLeft(s[..n], s[n..], m, i);
        assert s[..n] + s[n..] == s;
      }
    }
  }

  /** With both markers in place a splice changes only what lies between them. */
  lemma {:induction false} SpliceBetween(readme: string, table: string, prose: string, b: nat, e: nat)
    requires Find(readme, BEGIN) == Some(b) && Find(readme, END) == Some(e) && b <= e
    ensures b + |BEGIN| <= e && e + |END| <= |readme|
    ensures Holds(SpliceWith(readme, table, prose).value, readme[..b], table, readme[e + |END|..])
  {
    EndAfterBegin(readme, b, e);
    PrefixHasNone(readme, b, BEGIN);
    PrefixHasNone(readme, b, END);
  }

  lemma {:induction false} NoMarkerAbove(readme: string, at: nat, prose: string, m: string)
    requires IsMarker(m) && !Contains(readme, m) && at <= |readme|
    requires SafeSeam(prose) && '<' !in prose
    ensures !Contains(readme[..at] + prose, m)
  {
    PrefixHasNone(readme, at, m);
    NoAngleNoMarker(prose, m);
    NoMarkerAcross(readme[..at], prose, m);
  }

  /** With neither marker a splice adds one section in front of the anchor and
      leaves the rest as it was. */
  lemma {:induction false} SpliceInserts(readme: string, table: string, prose: string, at: nat)
    requires !Contains(readme, BEGIN) && !Contains(readme, END) && Find(readme, ANCHOR) == Some(at)
    requires SafeSeam(prose) && '<' !in prose
    ensures Holds(SpliceWith(readme, table, prose).value, readme[..at] + prose, table, "\n" + readme[at..])
  {
    NoMarkerAbove(readme, at, prose, BEGIN);
    NoMarkerAbove(readme, at, prose, END);
    Regrouped(readme[..at], prose, Block(table), "\n", readme[at..]);
  }

  lemma {:induction false} Regrouped(a: string, b: string, c: string, d: string, e: string)
    ensures a + (b + c + d) + e == (a + b) + c + (d + e)
  {}

  /** Whatever a splice produces holds a block with the new table. */
  lemma {:induction false} SpliceHolds(readme: string, table: string, prose: string)
    requires SpliceWith(readme, table, prose).Ok? && SafeSeam(prose) && '<' !in prose
    ensures exists pre, post :: Holds(SpliceWith(readme, table, prose).value, pre, table, post)
  {
    var b, e := Find(readme, BEGIN), Find(readme, END);
    if b.Some? && e.Some? {
      SpliceBetween(readme, table, prose, b.value, e.value);
    } else {
      SpliceInserts(readme, table, prose, Find(readme, ANCHOR).value);
    }
  }

  /** An end marker inside the table is taken for the block's own, so the rest of
      the table is left behind and the text grows. */
  lemma {:induction false} EndInTableGrows(out: string, pre: string, table: string, post: string, prose: string)
    requires Holds(out, pre, table, post) && Contains(table, END)
    ensures SpliceWith(out, table, prose).Ok? && |SpliceWith(out, table, prose).value| > |out|
  {
    var k := Find(table, END).value;
    var cut, left := table[..k], table[k + |END|..] + END + post;
    PrefixHasNone(table, k, END);
    CutAtEnd(pre, table, post, k);
    SpliceReplaces(out, pre, cut, left, table, prose);
  }

  lemma {:induction false} CutAtEnd(pre: string, table: string, post: string, k: nat)
    requires OccursAt(table, END, k)
    ensures pre + Block(table) + post == pre + Block(table[..k]) + (table[k + |END|..] + END + post)
  {
    assert table == table[..k] + END + table[k + |END|..];
    Regrouped(BEGIN + "\n" + table[..k], END, table[k + |END|..], END, post);
  }

  /** Splicing twice is splicing once, exactly when the table does not contain the
      end marker; so then a write is always followed by a passing check. */
  lemma {:induction false} Idempotent(readme: string, table: string)
    requires Splice(readme, table).Ok?
    ensures Splice(Splice(readme, table).value, table) == Splice(readme, table) <==> !Contains(table, END)
  {
    IdempotentWith(readme, table, Prose(0));
  }

  lemma {:induction false} IdempotentWith(readme: string, table: string, prose: string)
    requires SpliceWith(readme, table, prose).Ok? && SafeSeam(prose) && '<' !in prose
    ensures var once := SpliceWith(readme, table, prose);
            SpliceWith(once.value, table, prose) == once <==> !Contains(table, END)
  {
    SpliceHolds(readme, table, prose);
    var out := SpliceWith(readme, table, prose).value;
    var pre, post :| Holds(out, pre, table, post);
    if Contains(table, END) {
      EndInTableGrows(out, pre, table, post, prose);
    } else {
      SpliceReplaces(out, pre, table, post, table, prose);
    }
  }

  lemma {:induction false} MarkersSpelledOut(table: string)
    ensures BEGIN == "<!-- bench:begin -->" && END == "<!-- bench:end -->" && ANCHOR == "\n## Backends\n"
    ensures Block(table) == "<!-- bench:begin -->" + "\n" + table + "<!-- bench:end -->"
  {}

  /** A splice that is not refused keeps all text up to the first begin marker and from
      the end of the first end marker on; where there is no marker, all text up to the
      anchor and from it on, behind the inserted prose. In between stands the block, the
      table between the two markers, and nothing else. */
  lemma {:induction false} OutsideUnchanged(readme: string, table: string, prose: string)
    requires SpliceWith(readme, table, prose).Ok? && SafeSeam(prose) && '<' !in prose
    ensures var out := SpliceWith(readme, table, prose).value;
            var b, e, at := Find(readme, "<!-- bench:begin -->"), Find(readme, "<!-- bench:end -->"), Find(readme, "\n## Backends\n");
            var block := "<!-- bench:begin -->" + "\n" + table + "<!-- bench:end -->";
            if b.Some? then
              && e.Some? && b.value + |BEGIN| <= e.value && e.value + |END| <= |readme|
              && Holds(out, readme[..b.value], table, readme[e.value + |END|..])
              && out == readme[..b.value] + block + readme[e.value + |END|..]
            else
              && at.Some? && at.value <= |readme|
              && Holds(out, readme[..at.value] + prose, table, "\n" + readme[at.value..])
              && out == readme[..at.value] + prose + block + ("\n" + readme[at.value..])
  {
    MarkersSpelledOut(table);
    if Contains(readme, BEGIN) {
      SpliceBetween(readme, table, prose, Find(readme, BEGIN).value, Find(readme, END).value);
    } else {
      SpliceInserts(readme, table, prose, Find(readme, ANCHOR).value);
    }
  }
}
