/**
 Settling a message from a session's append-only transcript: scanTranscript
 (internal/claudedriver/transcript.go) and the dispatch records that keep how far
 it has read (reconcile and keepDispatch, internal/claudedriver/driver.go).
 */
module Transcript {

  const NEWLINE: char := '\n'

  /** True if part occurs in s. */
  predicate Contains(s: string, part: string) {
    part <= s || (s != [] && Contains(s[1..], part))
  }

  /**
   What a pass looks for: the message's native ID and text marker, and what the
   line decoders say about a line. The decoders (JSON inside) are arbitrary.
   */
  datatype Probe = Probe(
    id: string,
    marker: string,
    carries: string -> bool,
    hookContext: string -> bool,
    enqueue: string -> bool)
  {
    /** The line shows the message in the conversation. */
    predicate Inserts(line: string) {
      || (Contains(line, id) && carries(line))
      || (marker != "" && Contains(line, marker) && hookContext(line))
    }

    /** The line shows the session queueing the message. */
    predicate Enqueues(line: string) {
      !Inserts(line) && marker != "" && Contains(line, marker) && enqueue(line)
    }
  }

  datatype Scan = Scan(inserted: bool, enqueued: bool, offset: nat)

  // ---- complete lines ----

  /** Where the first line of s ends, just past its newline; |s| + 1 if none does. */
  function LineEnd(s: string): (n: nat)
    ensures 1 <= n <= |s| + 1
  {
    if s == [] || s[0] == NEWLINE then 1 else 1 + LineEnd(s[1..])
  }

  lemma {:induction false} LineEndIsFirstNewline(s: string)
    ensures LineEnd(s) <= |s| ==> s[LineEnd(s) - 1] == NEWLINE
    ensures forall i :: 0 <= i < LineEnd(s) - 1 ==> s[i] != NEWLINE
  {
    if s != [] && s[0] != NEWLINE {
      LineEndIsFirstNewline(s[1..]);
    }
  }

  /** The complete lines of s, each with its newline; a partial last line is left out. */
  function CompleteLines(s: string): seq<string>
    decreases |s|
  {
    var n := LineEnd(s);
    if n > |s| then [] else [s[..n]] + CompleteLines(s[n..])
  }

  function Total(lines: seq<string>): nat {
    if lines == [] then 0 else |lines[0]| + Total(lines[1..])
  }

  // ---- the one-scan meaning ----

  /** How many lines come before the first that shows the message; all if none does. */
  function FirstInsert(p: Probe, lines: seq<string>): (k: nat)
    ensures k <= |lines|
    ensures k < |lines| ==> p.Inserts(lines[k])
    ensures forall i :: 0 <= i < k ==> !p.Inserts(lines[i])
  {
    if lines == [] || p.Inserts(lines[0]) then 0 else 1 + FirstInsert(p, lines[1..])
  }

  /** What reading all complete lines of file from offset must report. */
  ghost function OneScan(p: Probe, file: string, offset: nat): Scan
    requires offset <= |file|
  {
    OfLines(p, CompleteLines(file[offset..]), offset)
  }

  /** What some lines show: everything up to and including the first that shows the message. */
  ghost function OfLines(p: Probe, lines: seq<string>, offset: nat): Scan {
    var k := FirstInsert(p, lines);
    Scan(k < |lines|,
         exists i :: 0 <= i < k && p.Enqueues(lines[i]),
         offset + Total(if k < |lines| then lines[..k + 1] else lines))
  }

  /** The same line by line, as the loop meets it. */
  function ScanFrom(p: Probe, file: string, offset: nat): Scan
    requires offset <= |file|
    decreases |file| - offset
  {
    var n := LineEnd(file[offset..]);
    if n > |file| - offset then Scan(false, false, offset)
    else
      var line := file[offset..][..n];
      if p.Inserts(line) then Scan(true, false, offset + n)
      else
        var next := ScanFrom(p, file, offset + n);
        Scan(next.inserted, p.Enqueues(line) || next.enqueued, next.offset)
  }

  lemma TotalOne(line: string, rest: seq<string>)
    ensures Total([line] + rest) == |line| + Total(rest)
  {
    assert ([line] + rest)[1..] == rest;
  }

  lemma LinesStep(s: string)
    ensures LineEnd(s) <= |s| ==> CompleteLines(s) == [s[..LineEnd(s)]] + CompleteLines(s[LineEnd(s)..])
    ensures LineEnd(s) > |s| ==> CompleteLines(s) == []
  {
  }

  lemma OfLinesStep(p: Probe, line: string, rest: seq<string>, offset: nat)
    ensures p.Inserts(line) ==> OfLines(p, [line] + rest, offset) == Scan(true, false, offset + |line|)
    ensures !p.Inserts(line) ==>
      var next := OfLines(p, rest, offset + |line|);
      OfLines(p, [line] + rest, offset) == Scan(next.inserted, p.Enqueues(line) || next.enqueued, next.offset)
  {
    var lines := [line] + rest;
    assert lines[1..] == rest;
    if p.Inserts(line) {
      assert lines[..1] == [line] + [];
      TotalOne(line, []);
    } else {
      SkipLine(p, line, rest);
      hide Total, FirstInsert;
    }
  }

  lemma ScanStep(p: Probe, file: string, offset: nat)
    requires offset <= |file|
    ensures var n := LineEnd(file[offset..]);
      if n > |file| - offset then ScanFrom(p, file, offset) == Scan(false, false, offset)
      else if p.Inserts(file[offset..][..n]) then ScanFrom(p, file, offset) == Scan(true, false, offset + n)
      else
        var next := ScanFrom(p, file, offset + n);
        ScanFrom(p, file, offset) == Scan(next.inserted, p.Enqueues(file[offset..][..n]) || next.enqueued, next.offset)
  {
  }

  lemma NoLines(p: Probe, offset: nat)
    ensures OfLines(p, [], offset) == Scan(false, false, offset)
  {
  }

  lemma OneScanIs(p: Probe, file: string, offset: nat)
    requires offset <= |file|
    ensures OneScan(p, file, offset) == OfLines(p, CompleteLines(file[offset..]), offset)
  {
  }

  lemma {:induction false} ScanFromIsOneScan(p: Probe, file: string, offset: nat)
    requires offset <= |file|
    ensures ScanFrom(p, file, offset) == OneScan(p, file, offset)
    decreases |file| - offset
  {
    hide *;
    var s := file[offset..];
    var n := LineEnd(s);
    LinesStep(s);
    ScanStep(p, file, offset);
    OneScanIs(p, file, offset);
    if n > |s| {
      NoLines(p, offset);
    } else {
      OfLinesStep(p, s[..n], CompleteLines(s[n..]), offset);
      if !p.Inserts(s[..n]) {
        assert file[offset + n..] == s[n..];
        ScanFromIsOneScan(p, file, offset + n);
        OneScanIs(p, file, offset + n);
      }
    }
  }

  // Passing over one line shifts everything by that line.
  lemma SkipLine(p: Probe, line: string, rest: seq<string>)
    requires !p.Inserts(line)
    ensures var lines := [line] + rest; var j := FirstInsert(p, rest);
      && FirstInsert(p, lines) == j + 1
      && Total(lines) == |line| + Total(rest)
      && (j < |rest| ==> Total(lines[..j + 2]) == |line| + Total(rest[..j + 1]))
      && ((exists i :: 0 <= i < j + 1 && p.Enqueues(lines[i]))
          <==> p.Enqueues(line) || (exists i :: 0 <= i < j && p.Enqueues(rest[i])))
  {
    var lines := [line] + rest;
    var j := FirstInsert(p, rest);
    assert lines[1..] == rest;
    TotalOne(line, rest);
    if j < |rest| {
      assert lines[..j + 2] == [line] + rest[..j + 1];
      TotalOne(line, rest[..j + 1]);
    }
    EnqueuedStep(p, line, rest, j);
  }

  lemma EnqueuedStep(p: Probe, line: string, rest: seq<string>, j: nat)
    requires j <= |rest|
    ensures var lines := [line] + rest;
      (exists i :: 0 <= i < j + 1 && p.Enqueues(lines[i]))
      <==> p.Enqueues(line) || (exists i :: 0 <= i < j && p.Enqueues(rest[i]))
  {
    var lines := [line] + rest;
    assert lines[0] == line;
    assert forall i :: 0 <= i < j ==> lines[i + 1] == rest[i];
    if i :| 0 <= i < j + 1 && p.Enqueues(lines[i]) {
      if i > 0 { assert rest[i - 1] == lines[i]; }
    }
  }

  /**
   scanTranscript. offset past the end means the file was replaced, and the
   whole of it is read again.
   */
  method ScanTranscript(p: Probe, file: string, offset: nat) returns (out: Scan)
    ensures out == OneScan(p, file, if offset > |file| then 0 else offset)
  {
    var at := if offset > |file| then 0 else offset;
    ghost var from := at;
    ScanFromIsOneScan(p, file, from);
    var enqueued := false;
    while true
      invariant from <= at <= |file|
      invariant var rest := ScanFrom(p, file, at);
        ScanFrom(p, file, from) == Scan(rest.inserted, enqueued || rest.enqueued, rest.offset)
      decreases |file| - at
    {
      var n := LineEnd(file[at..]);
      if n > |file| - at {
        return Scan(false, enqueued, at);
      }
      var line := file[at..][..n];
      at := at + n;
      if p.Inserts(line) {
        return Scan(true, enqueued, at);
      }
      if p.Enqueues(line) {
        enqueued := true;
      }
    }
  }

  // ---- resuming over an append-only file ----

  lemma {:induction false} LineEndOfPrefix(s: string, t: string)
    requires LineEnd(s) <= |s|
    ensures LineEnd(s + t) == LineEnd(s)
  {
    if s[0] != NEWLINE {
      assert (s + t)[1..] == s[1..] + t;
      LineEndOfPrefix(s[1..], t);
    }
  }

  /**
   Reading file up to where an earlier pass stopped, then the longer file from
   there, reports what one reading of the longer file reports.
   */
  lemma {:induction false} ResumeIsOneScan(p: Probe, file: string, more: string, offset: nat)
    requires offset <= |file|
    ensures var first := ScanFrom(p, file, offset);
      && offset <= first.offset <= |file|
      && (first.inserted ==> ScanFrom(p, file + more, offset) == first)
      && (!first.inserted ==>
            var second := ScanFrom(p, file + more, first.offset);
            ScanFrom(p, file + more, offset) == Scan(second.inserted, first.enqueued || second.enqueued, second.offset))
    decreases |file| - offset
  {
    var s := file[offset..];
    assert (file + more)[offset..] == s + more;
    var n := LineEnd(s);
    if n <= |s| {
      LineEndOfPrefix(s, more);
      assert (s + more)[..n] == s[..n];
      if !p.Inserts(s[..n]) {
        ResumeIsOneScan(p, file, more, offset + n);
      }
    }
  }

  /** A chain of ever longer files, and the flags and offset kept between passes. */
  ghost function Resume(p: Probe, files: seq<string>, start: Scan): Scan
    requires forall i :: 0 <= i < |files| ==> start.offset <= |files[i]|
    requires forall i, j :: 0 <= i < j < |files| ==> files[i] <= files[j]
    decreases |files|
  {
    if files == [] || start.inserted then start
    else
      var one := ScanFrom(p, files[0], start.offset);
      ResumeBounds(p, files, start);
      Resume(p, files[1..], Scan(one.inserted, start.enqueued || one.enqueued, one.offset))
  }

  lemma ResumeBounds(p: Probe, files: seq<string>, start: Scan)
    requires files != [] && start.offset <= |files[0]|
    requires forall i, j :: 0 <= i < j < |files| ==> files[i] <= files[j]
    ensures ScanFrom(p, files[0], start.offset).offset <= |files[0]|
    ensures forall i :: 0 <= i < |files| ==> |files[0]| <= |files[i]|
  {
    ResumeIsOneScan(p, files[0], "", start.offset);
  }

  /** Any number of resumed passes find exactly what one pass at the end finds. */
  lemma {:induction false} ResumedPassesAreOneScan(p: Probe, files: seq<string>, offset: nat, enqueued: bool)
    requires files != [] && forall i :: 0 <= i < |files| ==> offset <= |files[i]|
    requires forall i, j :: 0 <= i < j < |files| ==> files[i] <= files[j]
    ensures var whole := ScanFrom(p, files[|files| - 1], offset);
      Resume(p, files, Scan(false, enqueued, offset)) == Scan(whole.inserted, enqueued || whole.enqueued, whole.offset)
    decreases |files|
  {
    var start := Scan(false, enqueued, offset);
    var last := files[|files| - 1];
    var one := ScanFrom(p, files[0], offset);
    ResumeBounds(p, files, start);
    var more := last[|files[0]|..];
    assert files[0] <= last;
    assert last == files[0] + more;
    ResumeIsOneScan(p, files[0], more, offset);
    if |files| > 1 && !one.inserted {
      ResumedPassesAreOneScan(p, files[1..], one.offset, enqueued || one.enqueued);
    }
  }
}
