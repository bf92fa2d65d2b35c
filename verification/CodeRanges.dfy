/**
 Code ranges of a post body and the folds replaced outside them
 (internal/board/render.go, codeRanges and replaceFolds). A body is a string of
 bytes; what counts as blank after a closing fence is a parameter.
 */
module CodeRanges {
  import opened Wrappers

  const NEWLINE: char := '\n'

  /** The bytes from lo up to, not including, hi. */
  datatype Range = Range(lo: nat, hi: nat)

  // ---- lines ----

  /** strings.SplitAfter on a newline: every line but the last ends with one. */
  function SplitAfter(s: string): (lines: seq<string>)
    ensures |lines| >= 1
  {
    if s == [] then [[]]
    else
      var rest := SplitAfter(s[1..]);
      if s[0] == NEWLINE then [[s[0]]] + rest else [[s[0]] + rest[0]] + rest[1..]
  }

  /** Where line j starts. */
  function Offset(lines: seq<string>, j: nat): nat
    requires j <= |lines|
  {
    if j == 0 then 0 else Offset(lines, j - 1) + |lines[j - 1]|
  }

  function Concat(lines: seq<string>): string {
    if lines == [] then [] else lines[0] + Concat(lines[1..])
  }

  lemma {:induction false} SplitAfterKeepsText(s: string)
    ensures Concat(SplitAfter(s)) == s
  {
    if s != [] {
      var rest := SplitAfter(s[1..]);
      SplitAfterKeepsText(s[1..]);
      var lines := SplitAfter(s);
      if s[0] == NEWLINE {
        assert lines[1..] == rest;
      } else {
        assert lines[1..] == rest[1..];
        assert Concat(lines) == ([s[0]] + rest[0]) + Concat(rest[1..]);
      }
    }
  }

  lemma {:induction false} LineInText(lines: seq<string>, j: nat)
    requires j <= |lines|
    ensures Offset(lines, j) <= |Concat(lines)|
    ensures j < |lines| ==>
      && Offset(lines, j) + |lines[j]| <= |Concat(lines)|
      && Concat(lines)[Offset(lines, j)..Offset(lines, j) + |lines[j]|] == lines[j]
    ensures j == |lines| ==> Offset(lines, j) == |Concat(lines)|
    decreases |lines|
  {
    if j > 0 {
      var rest := lines[1..];
      LineInText(rest, j - 1);
      OffsetTail(lines, j);
      assert Concat(lines) == lines[0] + Concat(rest);
      hide Offset, Concat;
      if j < |lines| { SliceAfter(lines[0], Concat(rest), Offset(rest, j - 1), |lines[j]|); }
    } else if lines != [] {
      assert Concat(lines)[..|lines[0]|] == lines[0];
    }
  }

  lemma SliceAfter(a: string, b: string, at: nat, n: nat)
    requires at + n <= |b|
    ensures (a + b)[|a| + at..|a| + at + n] == b[at..at + n]
  {
  }

  lemma {:induction false} OffsetTail(lines: seq<string>, j: nat)
    requires 0 < j <= |lines|
    ensures Offset(lines, j) == |lines[0]| + Offset(lines[1..], j - 1)
  {
    if j > 1 { OffsetTail(lines, j - 1); }
  }

  lemma {:induction false} OffsetMonotone(lines: seq<string>, i: nat, j: nat)
    requires i <= j <= |lines|
    ensures Offset(lines, i) <= Offset(lines, j)
  {
    if i < j { OffsetMonotone(lines, i, j - 1); }
  }

  // ---- fenced blocks ----

  /** A fence mark: its character and how many there are, and where the mark ends in its line. */
  datatype Fence = Fence(mark: char, width: nat, end: nat)
  /** How many of c start s. */
  function RunLength(s: string, c: char): (n: nat)
    ensures n <= |s|
  {
    if s == [] || s[0] != c then 0 else 1 + RunLength(s[1..], c)
  }

  /** Up to three spaces, then at least three backticks or tildes. */
  function FenceMark(line: string): Option<Fence> {
    var spaces := RunLength(line, ' ');
    if spaces > 3 then None
    else
      var rest := line[spaces..];
      var ticks, tildes := RunLength(rest, '`'), RunLength(rest, '~');
      if ticks >= 3 then Some(Fence('`', ticks, spaces + ticks))
      else if tildes >= 3 then Some(Fence('~', tildes, spaces + tildes))
      else None
  }

  lemma FenceMarkBounds(line: string)
    ensures FenceMark(line).Some? ==> FenceMark(line).value.end <= |line| && line != []
    ensures FenceMark(line).Some? ==> line[0] == ' ' || line[0] == '`' || line[0] == '~'
  {
  }

  /** The line closes a block opened with fence. */
  predicate Closes(line: string, fence: Fence, blank: string -> bool) {
    var m := FenceMark(line);
    FenceMarkBounds(line);
    m.Some? && m.value.mark == fence.mark && m.value.width >= fence.width && blank(line[m.value.end..])
  }

  /** The first line from j on that closes fence, or |lines|. */
  function Closer(lines: seq<string>, j: nat, fence: Fence, blank: string -> bool): (k: nat)
    requires j <= |lines|
    ensures j <= k <= |lines|
    decreases |lines| - j
  {
    if j == |lines| || Closes(lines[j], fence, blank) then j else Closer(lines, j + 1, fence, blank)
  }

  lemma {:induction false} CloserIsFirst(lines: seq<string>, j: nat, fence: Fence, blank: string -> bool)
    requires j <= |lines|
    ensures var k := Closer(lines, j, fence, blank);
      && (k < |lines| ==> Closes(lines[k], fence, blank))
      && forall x :: j <= x < k ==> !Closes(lines[x], fence, blank)
    decreases |lines| - j
  {
    if j < |lines| && !Closes(lines[j], fence, blank) { CloserIsFirst(lines, j + 1, fence, blank); }
  }

  /** The line after the block opened with fence on the line before j. */
  function After(lines: seq<string>, j: nat, fence: Fence, blank: string -> bool): (next: nat)
    requires j <= |lines|
    ensures j <= next <= |lines|
  {
    var k := Closer(lines, j, fence, blank);
    if k < |lines| then k + 1 else k
  }

  /**
   The fenced blocks from line j on: each runs from a line that opens a fence
   to the first later line that closes it, or to the end.
   */
  function Fences(lines: seq<string>, j: nat, blank: string -> bool): seq<Range>
    requires j <= |lines|
    decreases |lines| - j
  {
    if j == |lines| then []
    else
      var m := FenceMark(lines[j]);
      if m.None? then Fences(lines, j + 1, blank)
      else
        var next := After(lines, j + 1, m.value, blank);
        [Range(Offset(lines, j), Offset(lines, next))] + Fences(lines, next, blank)
  }

  ghost predicate InAny(p: nat, ranges: seq<Range>) {
    exists r :: r in ranges && r.lo <= p < r.hi
  }

  /** Non-empty, ordered, disjoint, and between a and n. */
  predicate OrderedWithin(ranges: seq<Range>, a: nat, n: nat) {
    && (forall i :: 0 <= i < |ranges| ==> a <= ranges[i].lo < ranges[i].hi <= n)
    && (forall i, j :: 0 <= i < j < |ranges| ==> ranges[i].hi <= ranges[j].lo)
  }

  lemma OrderedCons(r: Range, rest: seq<Range>, n: nat)
    requires r.lo < r.hi <= n && OrderedWithin(rest, r.hi, n)
    ensures OrderedWithin([r] + rest, r.lo, n)
  {
  }

  lemma FencesStep(lines: seq<string>, j: nat, blank: string -> bool)
    requires j <= |lines|
    ensures j == |lines| ==> Fences(lines, j, blank) == []
    ensures j < |lines| && FenceMark(lines[j]).None? ==> Fences(lines, j, blank) == Fences(lines, j + 1, blank)
    ensures j < |lines| && FenceMark(lines[j]).Some? ==>
      var next := After(lines, j + 1, FenceMark(lines[j]).value, blank);
      && j < next <= |lines|
      && Fences(lines, j, blank) == [Range(Offset(lines, j), Offset(lines, next))] + Fences(lines, next, blank)
  {
  }

  /** What FencesOrdered says of a list of blocks. */
  ghost predicate AreBlocks(text: string, blocks: seq<Range>, a: nat) {
    OrderedWithin(blocks, a, |text|) && forall r :: r in blocks ==> StartsBlock(text, r)
  }

  lemma BlocksCons(text: string, r: Range, rest: seq<Range>)
    requires r.lo < r.hi <= |text| && StartsBlock(text, r) && AreBlocks(text, rest, r.hi)
    ensures AreBlocks(text, [r] + rest, r.lo)
  {
    OrderedCons(r, rest, |text|);
  }

  lemma BlocksLower(text: string, blocks: seq<Range>, a: nat, b: nat)
    requires a <= b && AreBlocks(text, blocks, b)
    ensures AreBlocks(text, blocks, a)
  {
  }

  lemma NoBlocks(text: string, a: nat)
    ensures AreBlocks(text, [], a)
  {
  }

  /** Fences are ordered and disjoint, and each starts with a space, backtick or tilde. */
  lemma {:induction false} FencesOrdered(lines: seq<string>, j: nat, blank: string -> bool)
    requires j <= |lines|
    ensures AreBlocks(Concat(lines), Fences(lines, j, blank), Offset(lines, j))
    decreases |lines| - j
  {
    hide *;
    FencesStep(lines, j, blank);
    if j == |lines| {
      NoBlocks(Concat(lines), Offset(lines, j));
    } else if FenceMark(lines[j]).None? {
      FencesOrdered(lines, j + 1, blank);
      OffsetNext(lines, j);
      BlocksLower(Concat(lines), Fences(lines, j + 1, blank), Offset(lines, j), Offset(lines, j + 1));
    } else {
      var next := After(lines, j + 1, FenceMark(lines[j]).value, blank);
      FencesOrdered(lines, next, blank);
      OffsetMonotone(lines, j + 1, next);
      LineInText(lines, next);
      FenceStart(lines, j);
      BlocksCons(Concat(lines), Range(Offset(lines, j), Offset(lines, next)), Fences(lines, next, blank));
    }
  }

  predicate StartsBlock(text: string, r: Range) { r.lo < |text| && text[r.lo] in {' ', '`', '~'} }

  /** A line that opens or closes a block starts with a space, backtick or tilde. */
  lemma FenceStart(lines: seq<string>, j: nat)
    requires j < |lines| && FenceMark(lines[j]).Some?
    ensures Offset(lines, j) < Offset(lines, j + 1) <= |Concat(lines)|
    ensures forall hi :: StartsBlock(Concat(lines), Range(Offset(lines, j), hi))
  {
    LineInText(lines, j);
    FenceMarkBounds(lines[j]);
    assert Concat(lines)[Offset(lines, j)..Offset(lines, j) + |lines[j]|][0] == lines[j][0];
  }

  // ---- prose: the text outside fenced blocks, with where each byte came from ----

  function Positions(start: nat, n: nat): (r: seq<nat>)
    ensures |r| == n && forall i :: 0 <= i < n ==> r[i] == start + i
  {
    seq(n, i requires 0 <= i < n => start + i)
  }

  /** The positions of the bytes outside the fenced blocks, from line j on. */
  function ProseAt(lines: seq<string>, j: nat, blank: string -> bool): seq<nat>
    requires j <= |lines|
    decreases |lines| - j
  {
    if j == |lines| then []
    else
      var m := FenceMark(lines[j]);
      if m.None? then Positions(Offset(lines, j), |lines[j]|) + ProseAt(lines, j + 1, blank)
      else ProseAt(lines, After(lines, j + 1, m.value, blank), blank)
  }

  ghost predicate Increasing(at: seq<nat>) {
    forall i, j :: 0 <= i < j < |at| ==> at[i] < at[j]
  }

  lemma {:induction false} ProseIncreasing(lines: seq<string>, j: nat, blank: string -> bool)
    requires j <= |lines|
    ensures Increasing(ProseAt(lines, j, blank))
    ensures forall i :: 0 <= i < |ProseAt(lines, j, blank)| ==>
      Offset(lines, j) <= ProseAt(lines, j, blank)[i] < |Concat(lines)|
    decreases |lines| - j
  {
    if j < |lines| {
      LineInText(lines, j);
      var m := FenceMark(lines[j]);
      if m.None? {
        ProseIncreasing(lines, j + 1, blank);
      } else {
        var next := After(lines, j + 1, m.value, blank);
        ProseIncreasing(lines, next, blank);
        OffsetMonotone(lines, j, next);
      }
    }
  }

  /** The prose is exactly the bytes outside the fenced blocks. */
  lemma {:induction false} ProseIsOutsideFences(lines: seq<string>, j: nat, blank: string -> bool, p: nat)
    requires j <= |lines| && Offset(lines, j) <= p < Offset(lines, |lines|)
    ensures p in ProseAt(lines, j, blank) <==> !InAny(p, Fences(lines, j, blank))
    decreases |lines| - j
  {
    if j < |lines| {
      var m := FenceMark(lines[j]);
      var next := if m.None? then j + 1 else After(lines, j + 1, m.value, blank);
      if Offset(lines, next) <= p {
        ProseIsOutsideFences(lines, next, blank, p);
      } else {
        FencesOrdered(lines, next, blank);
        ProseIncreasing(lines, next, blank);
      }
      if m.None? {
        var here := Positions(Offset(lines, j), |lines[j]|);
        if p < Offset(lines, next) { assert here[p - Offset(lines, j)] == p; }
      } else {
        var first, rest := Range(Offset(lines, j), Offset(lines, next)), Fences(lines, next, blank);
        assert forall r :: r in [first] + rest <==> r == first || r in rest;
        OffsetMonotone(lines, j, next);
      }
    }
  }

  // ---- inline spans ----

  /** A maximal run of width backticks at a. */
  predicate RunAt(text: string, a: nat, width: nat) {
    && 0 < width && a + width <= |text|
    && (forall i :: a <= i < a + width ==> text[i] == '`')
    && (a == 0 || text[a - 1] != '`')
    && (a + width == |text| || text[a + width] != '`')
  }

  /** The span pairs the run at its start with the next run of the same width. */
  ghost predicate PairsRuns(text: string, span: Range) {
    exists width: nat, close: nat :: Pair(text, span, width, close)
  }

  ghost predicate Pair(text: string, span: Range, width: nat, close: nat) {
    && RunAt(text, span.lo, width)
    && span.lo + width <= close
    && RunAt(text, close, width)
    && span.hi == close + width
    && forall a :: span.lo + width <= a < close ==> !RunAt(text, a, width)
  }

  /** No run after the one at a has its width. */
  ghost predicate Unpaired(text: string, a: nat, width: nat) {
    forall c :: a + width <= c ==> !RunAt(text, c, width)
  }

  /** Every run before i either lies inside a span or has no partner. */
  ghost predicate RunsSettled(text: string, spans: seq<Range>, i: nat) {
    forall a: nat, width: nat :: a < i && RunAt(text, a, width) ==>
      a + width <= i && (Covered(spans, a, a + width) || Unpaired(text, a, width))
  }

  ghost predicate Covered(spans: seq<Range>, a: nat, b: nat) {
    exists r :: r in spans && r.lo <= a && b <= r.hi
  }

  /** i is not in the middle of a run. */
  predicate Between(text: string, i: nat) {
    i <= |text| && (i == 0 || i == |text| || text[i - 1] != '`' || text[i] != '`')
  }

  /** Where the run of backticks at i ends. */
  method RunEnd(text: string, i: nat) returns (run: nat)
    requires i < |text| && text[i] == '`'
    ensures i < run <= |text|
    ensures forall x :: i <= x < run ==> text[x] == '`'
    ensures run == |text| || text[run] != '`'
  {
    run := i;
    while run < |text| && text[run] == '`'
      invariant i <= run <= |text|
      invariant forall x :: i <= x < run ==> text[x] == '`'
    {
      run := run + 1;
    }
  }

  /** The next run of the given width from j on. */
  method NextRun(text: string, j: nat, width: nat) returns (close: nat, closed: bool)
    requires Between(text, j) && 0 < width
    ensures closed ==> j <= close && RunAt(text, close, width)
    ensures closed ==> forall a :: j <= a < close ==> !RunAt(text, a, width)
    ensures !closed ==> forall a :: j <= a ==> !RunAt(text, a, width)
  {
    var x := j;
    while x < |text|
      invariant j <= x && Between(text, x)
      invariant forall a :: j <= a < x ==> !RunAt(text, a, width)
    {
      if text[x] != '`' {
        x := x + 1;
      } else {
        var k := RunEnd(text, x);
        if k - x == width { return x, true; }
        x := k;
      }
    }
    return 0, false;
  }

  /**
   The inline code spans of the prose: ordered and disjoint, each pairing a run
   of backticks with the next run of the same width, and every run outside them
   has no later run of its width.
   */
  method InlineSpans(text: string) returns (spans: seq<Range>)
    ensures OrderedWithin(spans, 0, |text|)
    ensures forall r :: r in spans ==> PairsRuns(text, r)
    ensures RunsSettled(text, spans, |text|)
  {
    spans := [];
    var i := 0;
    while i < |text|
      invariant Between(text, i)
      invariant OrderedWithin(spans, 0, i)
      invariant forall r :: r in spans ==> PairsRuns(text, r)
      invariant RunsSettled(text, spans, i)
    {
      if text[i] != '`' {
        i := i + 1;
      } else {
        var run := RunEnd(text, i);
        var width := run - i;
        assert RunAt(text, i, width);
        var close, closed := NextRun(text, run, width);
        if closed {
          var span := Range(i, close + width);
          assert Pair(text, span, width, close);
          SettleSpan(text, spans, span, width, close);
          spans, i := spans + [span], close + width;
        } else {
          SettleAlone(text, spans, i, width);
          i := run;
        }
      }
    }
  }

  lemma SettleSpan(text: string, spans: seq<Range>, span: Range, width: nat, close: nat)
    requires RunsSettled(text, spans, span.lo) && Pair(text, span, width, close)
    ensures RunsSettled(text, spans + [span], span.hi)
  {
    forall a: nat, w: nat | a < span.hi && RunAt(text, a, w)
      ensures a + w <= span.hi && (Covered(spans + [span], a, a + w) || Unpaired(text, a, w))
    {
      if a < span.lo {
        if Covered(spans, a, a + w) {
          var r :| r in spans && r.lo <= a && a + w <= r.hi;
          assert r in spans + [span];
        }
      } else {
        assert span in spans + [span];
      }
    }
  }

  lemma SettleAlone(text: string, spans: seq<Range>, i: nat, width: nat)
    requires RunsSettled(text, spans, i) && RunAt(text, i, width) && Unpaired(text, i, width)
    ensures RunsSettled(text, spans, i + width)
  {
    forall a: nat, w: nat | i <= a < i + width && RunAt(text, a, w)
      ensures a == i && w == width
    {
    }
  }

  // ---- codeRanges ----

  /** The prose of body: the bytes at the given positions. */
  predicate IsProse(body: string, text: string, at: seq<nat>) {
    |text| == |at| && forall i :: 0 <= i < |at| ==> at[i] < |body| && text[i] == body[at[i]]
  }

  /** What the pass has found before line j, and what is still to come, make up the whole. */
  ghost predicate Progress(lines: seq<string>, j: nat, fence: Option<Fence>, fenceStart: nat,
                           ranges: seq<Range>, at: seq<nat>, blank: string -> bool)
    requires j <= |lines|
  {
    if fence.None? then
      && ranges + Fences(lines, j, blank) == Fences(lines, 0, blank)
      && at + ProseAt(lines, j, blank) == ProseAt(lines, 0, blank)
    else
      var next := After(lines, j, fence.value, blank);
      && ranges + ([Range(fenceStart, Offset(lines, next))] + Fences(lines, next, blank)) == Fences(lines, 0, blank)
      && at + ProseAt(lines, next, blank) == ProseAt(lines, 0, blank)
  }

  lemma ProseStep(lines: seq<string>, j: nat, start: nat, ranges: seq<Range>, at: seq<nat>, blank: string -> bool)
    requires j < |lines| && Progress(lines, j, None, start, ranges, at, blank) && FenceMark(lines[j]).None?
    ensures Progress(lines, j + 1, None, start, ranges, at + Positions(Offset(lines, j), |lines[j]|), blank)
  {
    var here, rest := Positions(Offset(lines, j), |lines[j]|), ProseAt(lines, j + 1, blank);
    Regroup(at, here, rest);
  }

  lemma ClosesAt(lines: seq<string>, j: nat, fence: Fence, blank: string -> bool)
    requires j < |lines| && Closes(lines[j], fence, blank)
    ensures After(lines, j, fence, blank) == j + 1
  {
  }

  lemma CloseStep(lines: seq<string>, j: nat, fence: Fence, block: Range,
                  ranges: seq<Range>, at: seq<nat>, blank: string -> bool)
    requires j < |lines| && Progress(lines, j, Some(fence), block.lo, ranges, at, blank)
    requires Closes(lines[j], fence, blank) && block.hi == Offset(lines, j + 1)
    ensures Progress(lines, j + 1, None, block.lo, ranges + [block], at, blank)
  {
    ClosesAt(lines, j, fence, blank);
    Regroup(ranges, [block], Fences(lines, j + 1, blank));
  }

  lemma OpenStep(lines: seq<string>, j: nat, start: nat, fenceStart: nat,
                 ranges: seq<Range>, at: seq<nat>, blank: string -> bool)
    requires j < |lines| && Progress(lines, j, None, start, ranges, at, blank)
    requires FenceMark(lines[j]).Some? && fenceStart == Offset(lines, j)
    ensures Progress(lines, j + 1, FenceMark(lines[j]), fenceStart, ranges, at, blank)
  {
  }

  lemma EndStep(lines: seq<string>, fence: Fence, block: Range,
                ranges: seq<Range>, at: seq<nat>, blank: string -> bool)
    requires Progress(lines, |lines|, Some(fence), block.lo, ranges, at, blank)
    requires block.hi == Offset(lines, |lines|)
    ensures Progress(lines, |lines|, None, block.lo, ranges + [block], at, blank)
  {
    Regroup(ranges, [block], []);
  }

  lemma InsideStep(lines: seq<string>, j: nat, fence: Fence, start: nat,
                   ranges: seq<Range>, at: seq<nat>, blank: string -> bool)
    requires j < |lines| && Progress(lines, j, Some(fence), start, ranges, at, blank)
    requires !Closes(lines[j], fence, blank)
    ensures Progress(lines, j + 1, Some(fence), start, ranges, at, blank)
  {
  }

  lemma Finished(lines: seq<string>, start: nat, ranges: seq<Range>, at: seq<nat>, blank: string -> bool)
    requires Progress(lines, |lines|, None, start, ranges, at, blank)
    ensures ranges == Fences(lines, 0, blank) && at == ProseAt(lines, 0, blank)
  {
  }

  lemma LineIsProse(body: string, lines: seq<string>, j: nat, text: string, at: seq<nat>)
    requires IsProse(body, text, at) && body == Concat(lines) && j < |lines|
    ensures IsProse(body, text + lines[j], at + Positions(Offset(lines, j), |lines[j]|))
  {
    LineInText(lines, j);
    var offset, line := Offset(lines, j), lines[j];
    assert forall i :: 0 <= i < |line| ==> line[i] == body[offset..offset + |line|][i];
  }

  lemma NothingYet(body: string, lines: seq<string>, blank: string -> bool)
    ensures Progress(lines, 0, None, 0, [], [], blank) && IsProse(body, [], []) && Offset(lines, 0) == 0
  {
  }

  lemma OffsetNext(lines: seq<string>, j: nat)
    requires j < |lines|
    ensures Offset(lines, j + 1) == Offset(lines, j) + |lines[j]|
  {
  }

  /** One pass over the lines, splitting the body into fenced blocks and prose. */
  method SplitFences(body: string, blank: string -> bool)
    returns (ranges: seq<Range>, text: string, proseAt: seq<nat>)
    ensures ranges == Fences(SplitAfter(body), 0, blank)
    ensures proseAt == ProseAt(SplitAfter(body), 0, blank)
    ensures IsProse(body, text, proseAt)
  {
    hide *;
    var lines := SplitAfter(body);
    SplitAfterKeepsText(body);
    NothingYet(body, lines, blank);
    ranges, text, proseAt := [], [], [];
    var fence: Option<Fence> := None;
    var fenceStart: nat, offset, j := 0, 0, 0;
    while j < |lines|
      invariant j <= |lines| && offset == Offset(lines, j) && IsProse(body, text, proseAt)
      invariant Progress(lines, j, fence, fenceStart, ranges, proseAt, blank)
    {
      var line := lines[j];
      var m := FenceMark(line);
      OffsetNext(lines, j);
      if fence.None? && m.Some? {
        OpenStep(lines, j, fenceStart, offset, ranges, proseAt, blank);
        fence, fenceStart := m, offset;
      } else if fence.Some? && Closes(line, fence.value, blank) {
        var block := Range(fenceStart, offset + |line|);
        CloseStep(lines, j, fence.value, block, ranges, proseAt, blank);
        ranges := ranges + [block];
        fence := None;
      } else if fence.None? {
        ProseStep(lines, j, fenceStart, ranges, proseAt, blank);
        LineIsProse(body, lines, j, text, proseAt);
        proseAt := proseAt + Positions(offset, |line|);
        text := text + line;
      } else {
        InsideStep(lines, j, fence.value, fenceStart, ranges, proseAt, blank);
      }
      offset, j := offset + |line|, j + 1;
    }
    LineInText(lines, |lines|);
    if fence.Some? {
      var block := Range(fenceStart, |body|);
      EndStep(lines, fence.value, block, ranges, proseAt, blank);
      ranges := ranges + [block];
    }
    Finished(lines, fenceStart, ranges, proseAt, blank);
  }

  /** The span of body bytes that a span of prose covers, first byte to last. */
  function InBody(at: seq<nat>, span: Range): Range
    requires span.lo < span.hi <= |at|
  {
    Range(at[span.lo], at[span.hi - 1] + 1)
  }

  /**
   What codeRanges promises: the fences, then the image of the spans of the
   prose, which settle every backtick run in it.
   */
  ghost predicate AreCodeRanges(body: string, blank: string -> bool, ranges: seq<Range>,
                                text: string, at: seq<nat>, spans: seq<Range>) {
    var fences := Fences(SplitAfter(body), 0, blank);
    && at == ProseAt(SplitAfter(body), 0, blank) && IsProse(body, text, at)
    && OrderedWithin(spans, 0, |text|)
    && (forall r :: r in spans ==> PairsRuns(text, r))
    && RunsSettled(text, spans, |text|)
    && |ranges| == |fences| + |spans|
    && ranges[..|fences|] == fences
    && forall i :: 0 <= i < |spans| ==> ranges[|fences| + i] == InBody(at, spans[i])
  }

  method FindCodeRanges(body: string, blank: string -> bool)
    returns (ranges: seq<Range>, ghost text: string, ghost proseAt: seq<nat>, ghost spans: seq<Range>)
    ensures AreCodeRanges(body, blank, ranges, text, proseAt, spans)
  {
    var prose, at;
    ranges, prose, at := SplitFences(body, blank);
    var inline := InlineSpans(prose);
    ghost var fences := ranges;
    var i := 0;
    while i < |inline|
      invariant i <= |inline| && |ranges| == |fences| + i && ranges[..|fences|] == fences
      invariant forall x :: 0 <= x < i ==> ranges[|fences| + x] == InBody(at, inline[x])
    {
      ranges := ranges + [InBody(at, inline[i])];
      i := i + 1;
    }
    text, proseAt, spans := prose, at, inline;
  }

  /** Spans of prose keep their order in the body, and each still starts with a backtick. */
  lemma SpansInBody(body: string, text: string, at: seq<nat>, spans: seq<Range>, images: seq<Range>)
    requires IsProse(body, text, at) && Increasing(at)
    requires OrderedWithin(spans, 0, |text|) && forall r :: r in spans ==> PairsRuns(text, r)
    requires |images| == |spans| && forall i :: 0 <= i < |spans| ==> images[i] == InBody(at, spans[i])
    ensures OrderedWithin(images, 0, |body|)
    ensures forall i :: 0 <= i < |images| ==> body[images[i].lo] == '`'
  {
    forall i | 0 <= i < |images|
      ensures images[i].lo < images[i].hi <= |body| && body[images[i].lo] == '`'
    {
      var span := spans[i];
      assert span in spans;
      assert text[span.lo] == '`';
      assert span.lo == span.hi - 1 || at[span.lo] < at[span.hi - 1];
    }
    forall i, j | 0 <= i < j < |images|
      ensures images[i].hi <= images[j].lo
    {
      assert at[spans[i].hi - 1] < at[spans[j].lo];
    }
  }

  /**
   The ranges lie in the body, the fences ordered and disjoint and the inline
   ranges ordered and disjoint, and every range starts with a space, a backtick
   or a tilde.
   */
  lemma CodeRangesInBounds(body: string, blank: string -> bool, ranges: seq<Range>,
                           text: string, at: seq<nat>, spans: seq<Range>)
    requires AreCodeRanges(body, blank, ranges, text, at, spans)
    ensures var n := |ranges| - |spans|;
      0 <= n && OrderedWithin(ranges[..n], 0, |body|) && OrderedWithin(ranges[n..], 0, |body|)
    ensures forall r :: r in ranges ==> r.lo < r.hi <= |body| && body[r.lo] in {' ', '`', '~'}
  {
    var lines := SplitAfter(body);
    var n := |ranges| - |spans|;
    SplitAfterKeepsText(body);
    FencesOrdered(lines, 0, blank);
    ProseIncreasing(lines, 0, blank);
    SpansInBody(body, text, at, spans, ranges[n..]);
    assert ranges == ranges[..n] + ranges[n..];
  }

  // ---- replaceFolds ----

  /** One match of detailsPattern: the section, where its closing tag starts, and the groups that matched. */
  datatype Match = Match(section: Range, tag: nat, groups: seq<Option<Range>>)

  predicate GroupsWithin(groups: seq<Option<Range>>, n: nat) {
    forall i :: 0 <= i < |groups| && groups[i].Some? ==> groups[i].value.lo <= groups[i].value.hi <= n
  }

  /** The matches of the pattern in masked: each from an opening tag to a closing tag. */
  ghost predicate AreMatches(masked: string, matches: seq<Match>) {
    && (forall i :: 0 <= i < |matches| ==> IsMatch(masked, matches[i]))
    && (forall i, j :: 0 <= i < j < |matches| ==> matches[i].section.hi <= matches[j].section.lo)
  }

  ghost predicate IsMatch(masked: string, m: Match) {
    && m.section.lo <= m.tag < m.section.hi <= |masked|
    && masked[m.section.lo] == '<' && masked[m.tag] == '<'
    && (forall p :: m.tag < p < m.section.hi ==> masked[p] !in {' ', '`', '~'})
    && GroupsWithin(m.groups, |masked|)
  }

  const MASK: char := '\0'

  predicate MaskedIn(body: string, ranges: seq<Range>, p: nat)
    requires p < |body|
  {
    body[p] == '<' && exists i :: 0 <= i < |ranges| && ranges[i].lo <= p < ranges[i].hi
  }

  ghost predicate IsMasked(body: string, ranges: seq<Range>, masked: string) {
    && |masked| == |body|
    && forall p :: 0 <= p < |body| ==> masked[p] == if MaskedIn(body, ranges, p) then MASK else body[p]
  }

  /** Blanks every '<' inside the ranges, range by range. */
  method Mask(body: string, ranges: seq<Range>) returns (masked: string)
    requires forall r :: r in ranges ==> r.lo <= r.hi <= |body|
    ensures IsMasked(body, ranges, masked)
  {
    var bytes := new char[|body|](i requires 0 <= i < |body| => body[i]);
    var n := 0;
    while n < |ranges|
      invariant n <= |ranges| && IsMasked(body, ranges[..n], bytes[..])
    {
      var r := ranges[n];
      var i := r.lo;
      while i < r.hi
        invariant r.lo <= i <= r.hi
        invariant forall p :: 0 <= p < |body| ==>
          bytes[p] == if MaskedIn(body, ranges[..n], p) || (body[p] == '<' && r.lo <= p < i) then MASK else body[p]
      {
        if bytes[i] == '<' { bytes[i] := MASK; }
        i := i + 1;
      }
      assert ranges[..n + 1] == ranges[..n] + [r];
      n := n + 1;
    }
    assert ranges[..n] == ranges;
    masked := bytes[..];
  }

  function Texts(body: string, m: Match): seq<string>
    requires m.section.lo <= m.section.hi <= |body|
    requires GroupsWithin(m.groups, |body|)
  {
    [body[m.section.lo..m.section.hi]] +
    seq(|m.groups|, i requires 0 <= i < |m.groups| => GroupText(body, m.groups[i]))
  }

  /** What a group matched in the body, or nothing. */
  function GroupText(body: string, g: Option<Range>): string {
    if g.Some? && g.value.lo <= g.value.hi <= |body| then body[g.value.lo..g.value.hi] else ""
  }

  /** The section and its groups, as fold is given them. */
  method MatchTexts(body: string, m: Match) returns (texts: seq<string>)
    requires m.section.lo <= m.section.hi <= |body| && GroupsWithin(m.groups, |body|)
    ensures texts == Texts(body, m)
  {
    texts := [body[m.section.lo..m.section.hi]];
    for i := 0 to |m.groups|
      invariant texts == Texts(body, m)[..i + 1]
    {
      var text := "";
      if m.groups[i].Some? { text := body[m.groups[i].value.lo..m.groups[i].value.hi]; }
      texts := texts + [text];
    }
  }

  /** The body from position p on with the sections of the matches from n on replaced. */
  function Folded(body: string, p: nat, matches: seq<Match>, n: nat, fold: seq<string> -> string): string
    requires Fits(body, p, matches, n)
    decreases |matches| - n
  {
    if n == |matches| then body[p..]
    else
      var m := matches[n];
      body[p..m.section.lo] + fold(Texts(body, m)) + Folded(body, m.section.hi, matches, n + 1, fold)
  }

  /** The matches from n on are ordered and disjoint, from p on. */
  predicate Fits(body: string, p: nat, matches: seq<Match>, n: nat) {
    && n <= |matches| && p <= |body|
    && (forall i :: n <= i < |matches| ==>
      && p <= matches[i].section.lo <= matches[i].section.hi <= |body|
      && GroupsWithin(matches[i].groups, |body|))
    && (forall i, j :: n <= i < j < |matches| ==> matches[i].section.hi <= matches[j].section.lo)
  }

  lemma MatchesFit(body: string, masked: string, matches: seq<Match>)
    requires |masked| == |body| && AreMatches(masked, matches)
    ensures Fits(body, 0, matches, 0)
  {
  }

  method ReplaceFolds(body: string, blank: string -> bool, find: string -> seq<Match>,
                      fold: seq<string> -> string)
    returns (out: string, ghost ranges: seq<Range>, ghost masked: string)
    requires forall s: string :: AreMatches(s, find(s))
    ensures exists text, at, spans :: AreCodeRanges(body, blank, ranges, text, at, spans)
    ensures IsMasked(body, ranges, masked) && AreMatches(masked, find(masked))
    ensures Fits(body, 0, find(masked), 0) && out == Folded(body, 0, find(masked), 0, fold)
  {
    var found, text, at, spans := FindCodeRanges(body, blank);
    CodeRangesInBounds(body, blank, found, text, at, spans);
    var bytes := Mask(body, found);
    ranges, masked := found, bytes;
    var matches := find(bytes);
    MatchesFit(body, bytes, matches);
    hide AreCodeRanges, IsMasked, AreMatches;
    out := "";
    var last: nat, n: nat := 0, 0;
    while n < |matches|
      invariant n <= |matches| && Fits(body, 0, matches, 0) && Fits(body, last, matches, n)
      invariant out + Folded(body, last, matches, n, fold) == Folded(body, 0, matches, 0, fold)
    {
      var m := matches[n];
      ghost var rest := Folded(body, m.section.hi, matches, n + 1, fold);
      var texts := MatchTexts(body, m);
      var piece := body[last..m.section.lo] + fold(texts);
      Regroup(out, piece, rest);
      out := out + piece;
      last, n := m.section.hi, n + 1;
    }
    out := out + body[last..];
  }

  /** No replaced fold starts inside a code range, and none has its closing tag in one. */
  lemma FoldsKeepOutOfCode(body: string, blank: string -> bool, ranges: seq<Range>, masked: string, m: Match,
                           text: string, at: seq<nat>, spans: seq<Range>)
    requires AreCodeRanges(body, blank, ranges, text, at, spans)
    requires IsMasked(body, ranges, masked) && IsMatch(masked, m)
    ensures !InAny(m.section.lo, ranges)
    ensures forall p :: m.tag <= p < m.section.hi ==> !InAny(p, ranges)
  {
    CodeRangesInBounds(body, blank, ranges, text, at, spans);
    assert !InAny(m.section.lo, ranges) && !InAny(m.tag, ranges) by {
      forall r | r in ranges
        ensures !(r.lo <= m.section.lo < r.hi) && !(r.lo <= m.tag < r.hi)
      {
        var i :| 0 <= i < |ranges| && ranges[i] == r;
      }
    }
    forall r | r in ranges
      ensures r.hi <= m.tag || m.section.hi <= r.lo
    {
      assert r.lo < |masked| && masked[r.lo] == body[r.lo];
      assert InAny(m.tag, ranges) <== r.lo <= m.tag < r.hi;
    }
  }

  /** A fold that writes its section back leaves the body as it was. */
  lemma {:induction false} WritingBackIsIdentity(body: string, p: nat, matches: seq<Match>, n: nat)
    requires Fits(body, p, matches, n)
    ensures Folded(body, p, matches, n, WriteBack) == body[p..]
    decreases |matches| - n
  {
    if n < |matches| {
      var section := matches[n].section;
      WritingBackIsIdentity(body, section.hi, matches, n + 1);
      assert WriteBack(Texts(body, matches[n])) == body[section.lo..section.hi];
      ThreePieces(body, p, section.lo, section.hi);
    }
  }

  lemma ThreePieces(body: string, p: nat, lo: nat, hi: nat)
    requires p <= lo <= hi <= |body|
    ensures body[p..lo] + body[lo..hi] + body[hi..] == body[p..]
  {
  }

  function WriteBack(texts: seq<string>): string {
    if texts == [] then "" else texts[0]
  }

  /** By how much the folds from n on that end by position q have moved what follows them. */
  function Shift(body: string, matches: seq<Match>, n: nat, q: nat, fold: seq<string> -> string): int
    requires Fits(body, 0, matches, n)
    decreases |matches| - n
  {
    if n == |matches| || matches[n].section.hi > q then 0
    else
      var section := matches[n].section;
      |fold(Texts(body, matches[n]))| - (section.hi - section.lo) + Shift(body, matches, n + 1, q, fold)
  }

  /** Position q is in none of the sections from n on. */
  predicate Outside(matches: seq<Match>, n: nat, q: nat) {
    forall i :: n <= i < |matches| ==> !(matches[i].section.lo <= q < matches[i].section.hi)
  }

  /**
   A byte outside every replaced section comes through unchanged, moved by what
   the folds before it added; two such bytes keep their order.
   */
  lemma {:induction false} OutsideIsKept(body: string, p: nat, matches: seq<Match>, n: nat, q: nat,
                                         fold: seq<string> -> string)
    requires Fits(body, p, matches, n) && p <= q < |body| && Outside(matches, n, q)
    ensures var moved := q - p + Shift(body, matches, n, q, fold);
      0 <= moved < |Folded(body, p, matches, n, fold)| && Folded(body, p, matches, n, fold)[moved] == body[q]
    decreases |matches| - n
  {
    if n < |matches| && matches[n].section.hi <= q {
      OutsideIsKept(body, matches[n].section.hi, matches, n + 1, q, fold);
    }
  }

  lemma {:induction false} OutsideKeepsOrder(body: string, p: nat, matches: seq<Match>, n: nat, q: nat, q': nat,
                                             fold: seq<string> -> string)
    requires Fits(body, p, matches, n) && p <= q < q' < |body|
    requires Outside(matches, n, q) && Outside(matches, n, q')
    ensures q + Shift(body, matches, n, q, fold) < q' + Shift(body, matches, n, q', fold)
    decreases |matches| - n
  {
    if n < |matches| && matches[n].section.hi <= q' {
      if matches[n].section.hi <= q {
        OutsideKeepsOrder(body, matches[n].section.hi, matches, n + 1, q, q', fold);
      } else {
        OutsideIsKept(body, matches[n].section.hi, matches, n + 1, q', fold);
      }
    }
  }
}
